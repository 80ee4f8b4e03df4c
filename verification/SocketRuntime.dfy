/** The socket runtime as an object: the slot table of entry objects, the linked command and event queues and the pump
    list threaded through the entries, updated in place. A ghost field follows the state machine; every method takes exactly
    the steps its contract names, so the invariants and the theorems about runs hold of the object. */
module SocketRuntime {
  import opened Bytes
  import opened Options
  import opened LinkedQueues
  import opened PumpLists
  import opened RuntimeSteps
  import opened Seals
  import opened SlotTables
  import opened SocketEntries
  import opened SocketIds
  import opened SocketMachine
  import opened SocketObjects
  import opened MachineInvariants
  import Udp = UdpAddresses

  class Runtime {
    const table: SlotTable
    const commands: Queue<Command>
    const events: Queue<Event>
    const pumpList: PumpList
    var accepting: bool
    var exiting: bool
    var exitReady: bool
    var asyncOpen: bool
    var nextToken: nat
    ghost var model: Machine
    ghost var repr: set<object>

    /** The pump list links the entries of the slots in `pump`, in that order; every other entry has no successor. */
    ghost predicate Threaded(pump: seq<nat>)
      reads table, table.slots, table.entries`pumpNext, pumpList, pumpList.list`pumpNext
    {
      && pumpList.Valid() && |pumpList.list| == |pump|
      && (forall k :: 0 <= k < |pump| ==>
            pump[k] < table.slots.Length && table.slots[pump[k]] == pumpList.list[k] && pumpList.list[k] in table.entries)
      && (forall e :: e in table.entries && e !in pumpList.list ==> e.pumpNext == null)
    }

    ghost predicate Threads(pump: seq<nat>)
      reads table, table.slots, table.entries`pumpNext, pumpList, pumpList.list`pumpNext
    {
      && (forall e :: e in pumpList.list ==> e in table.entries)
      && forall k: nat :: Unsealed(Fold.Threads, k) ==> Threaded(pump)
    }

    lemma Unfold(pump: seq<nat>)
      requires Threads(pump)
      ensures Threaded(pump)
    {
      assert Unsealed(Fold.Threads, 0);
    }

    lemma Refold(pump: seq<nat>)
      requires Threaded(pump) && forall e :: e in pumpList.list ==> e in table.entries
      ensures Threads(pump)
    {
    }

    /** The table and the lists are those of a state. */
    ghost predicate Holds(m: Machine)
      reads table, table.slots, table.generations, table.entries, table.queues, table.cells
      reads commands, commands.cells, events, events.cells, pumpList, pumpList.list
    {
      && table.Valid() && table.model == m.table && Threads(m.loop.pump)
      && commands.Valid() && commands.contents == m.mail.commands && events.Valid() && events.contents == m.out.events
    }

    ghost predicate Scalars(m: Machine)
      reads this
    {
      && accepting == m.mail.accepting && exiting == m.loop.exiting && exitReady == m.loop.exitReady
      && asyncOpen == m.loop.asyncOpen && nextToken == m.out.issued
    }

    /** The parts of the runtime are its own. */
    ghost predicate Owns()
      reads this, table, commands, events
    {
      && {table, table.slots, table.generations, commands, events, pumpList} <= repr && this !in repr
      && table.entries <= repr && table.queues <= repr && table.cells <= repr && commands.cells <= repr && events.cells <= repr
    }

    /** The objects are in the state of the model. */
    ghost predicate Matches()
      reads this, repr
    {
      && Sizes(model.table) && |model.table.slots| == table.slots.Length && model.table.bits == table.bits && Scalars(model)
      && {table, table.slots, table.generations, commands, events, pumpList} <= repr && Owns()
      && (forall e :: e in pumpList.list ==> e in table.entries)
      && forall k: nat :: Unsealed(Fold.Runtimes, k) ==> Holds(model)
    }

    ghost predicate Valid()
      reads this, repr
    {
      Matches() && Kept(model)
    }

    /** What the runtime has gained since is new. */
    twostate predicate Grew()
      reads this
    {
      old(repr) <= repr && fresh(repr - old(repr))
    }

    lemma Lists()
      requires Matches()
      ensures Holds(model)
    {
      assert Unsealed(Fold.Runtimes, 0);
    }

    lemma Fits()
      requires Holds(model) && Scalars(model) && Owns()
      ensures Matches()
    {
    }

    /** The parts of a new runtime, put together. */
    constructor (table: SlotTable, commands: Queue<Command>, events: Queue<Event>, pumpList: PumpList)
      requires table.Valid() && IsSlotBits(table.bits) && table.model == Init(table.bits).table
      requires table.entries == {} && table.queues == {} && table.cells == {}
      requires commands.Valid() && commands.contents == [] && commands.cells == {}
      requires events.Valid() && events.contents == [] && events.cells == {}
      requires pumpList.Valid() && pumpList.list == []
      ensures Valid() && model == Init(table.bits)
      ensures repr == {table, table.slots, table.generations, commands, events, pumpList}
    {
      this.table, this.commands, this.events, this.pumpList := table, commands, events, pumpList;
      accepting, exiting, exitReady, asyncOpen, nextToken, model := true, false, false, true, 0, Init(table.bits);
      repr := {table, table.slots, table.generations, commands, events, pumpList};
      new;
      Unlinked();
      Fits();
      InitKept(table.bits);
    }

    lemma Unlinked()
      requires pumpList.Valid() && pumpList.list == [] && table.entries == {}
      ensures Threads([])
    {
    }

    /** skyuv_socket_runtime_create. */
    static method Create(bits: nat) returns (r: Runtime)
      requires IsSlotBits(bits)
      ensures r.Valid() && r.model == Init(bits) && fresh(r) && fresh(r.repr)
    {
      var commands: Queue<Command> := new Queue();
      var events: Queue<Event> := new Queue();
      var pumpList := new PumpList();
      var table := new SlotTable(bits);
      r := new Runtime(table, commands, events, pumpList);
    }

    // ---------- one list or the table changes ----------

    /** A slot that no scheduled entry uses may be emptied, and entries may be added. */
    twostate lemma StillThreaded(pump: seq<nat>)
      requires old(Threads(pump)) && unchanged(pumpList) && old(table.entries) <= table.entries
      requires forall e :: e in old(table.entries) ==> e.pumpNext == old(e.pumpNext)
      requires forall e :: e in table.entries && e !in old(table.entries) ==> e.pumpNext == null
      requires forall i :: 0 <= i < table.slots.Length && i in pump ==> table.slots[i] == old(table.slots[i])
      ensures Threads(pump)
    {
      assert Unsealed(Fold.Threads, 0);
      forall k | 0 <= k < |pump| ensures table.slots[pump[k]] == pumpList.list[k] { assert pump[k] in pump; }
    }

    /** The events of an operation, in order. */
    method Report(actions: seq<Action>)
      requires events.Valid()
      modifies events, events.cells
      ensures events.Valid() && events.contents == old(events.contents) + EventsIn(actions)
      ensures old(events.cells) <= events.cells && fresh(events.cells - old(events.cells))
    {
      var i := 0;
      while i < |actions|
        invariant i <= |actions| && events.Valid()
        invariant events.contents + EventsIn(actions[i..]) == old(events.contents) + EventsIn(actions)
        invariant old(events.cells) <= events.cells && fresh(events.cells - old(events.cells))
      {
        EventsNext(events.contents, actions, i);
        if actions[i].Emitted? { events.Push(actions[i].event); }
        i := i + 1;
      }
      assert events.contents + [] == events.contents;
    }

    method LinkEvents(actions: seq<Action>, ghost m: Machine)
      requires Holds(m)
      modifies events, events.cells
      ensures Holds(m.(out := m.out.(events := m.out.events + EventsIn(actions))))
      ensures old(events.cells) <= events.cells && fresh(events.cells - old(events.cells))
    {
      Report(actions);
      table.Undisturbed();
      commands.Undisturbed();
      StillThreaded(m.loop.pump);
    }

    method UnlinkEvent(ghost m: Machine) returns (event: Event)
      requires Holds(m) && m.out.events != []
      modifies events, events.cells
      ensures Holds(m.(out := m.out.(events := m.out.events[1..]))) && event == m.out.events[0] && events.cells == old(events.cells)
    {
      event := events.Pop();
      table.Undisturbed();
      commands.Undisturbed();
      StillThreaded(m.loop.pump);
    }

    method LinkCommand(c: Command, ghost m: Machine)
      requires Holds(m)
      modifies commands, commands.cells
      ensures Holds(m.(mail := m.mail.(commands := m.mail.commands + [c])))
      ensures old(commands.cells) <= commands.cells && fresh(commands.cells - old(commands.cells))
    {
      commands.Push(c);
      table.Undisturbed();
      events.Undisturbed();
      StillThreaded(m.loop.pump);
    }

    method UnlinkCommand(ghost m: Machine) returns (c: Command)
      requires Holds(m) && m.mail.commands != []
      modifies commands, commands.cells
      ensures Holds(m.(mail := m.mail.(commands := m.mail.commands[1..])))
      ensures c == m.mail.commands[0] && commands.cells == old(commands.cells)
    {
      c := commands.Pop();
      table.Undisturbed();
      events.Undisturbed();
      StillThreaded(m.loop.pump);
    }

    /** skyuv_socket_command_queue_destroy: command by command, each taking its buffer with it. */
    method DestroyQueue() returns (released: seq<nat>)
      requires commands.Valid()
      modifies commands, commands.cells
      ensures commands.Valid() && commands.contents == [] && commands.cells == old(commands.cells)
      ensures released == Buffers(old(commands.contents))
    {
      released := [];
      commands.EmptyHead();
      while commands.head != null
        invariant commands.Valid() && commands.cells == old(commands.cells)
        invariant commands.head == null <==> commands.contents == []
        invariant released + Buffers(commands.contents) == Buffers(old(commands.contents))
        decreases |commands.contents|
      {
        BuffersNext(released, commands.contents);
        var c := commands.Pop();
        released := released + Destroyed(c);
        commands.EmptyHead();
      }
      assert released + [] == released;
    }

    method UnlinkCommands(ghost m: Machine) returns (released: seq<nat>)
      requires Holds(m)
      modifies commands, commands.cells
      ensures Holds(m.(mail := m.mail.(commands := []))) && commands.cells == old(commands.cells)
      ensures released == Buffers(m.mail.commands)
    {
      released := DestroyQueue();
      table.Undisturbed();
      events.Undisturbed();
      StillThreaded(m.loop.pump);
    }

    /** An entry the runtime schedules goes to the end of the pump list. */
    method Enlist(s: nat, ghost m: Machine)
      requires Holds(m) && Occupied(m.table, s) && s !in m.loop.pump
      modifies pumpList, table.entries`pumpNext
      ensures Holds(m.(loop := m.loop.(pump := m.loop.pump + [s])))
    {
      ghost var pump := m.loop.pump;
      Unfold(pump);
      table.Shows(s);
      forall k | 0 <= k < |pump| ensures pumpList.list[k] != table.slots[s] { table.Distinct(pump[k], s); }
      pumpList.Append(table.slots[s]);
      table.Relinked();
      commands.Undisturbed();
      events.Undisturbed();
      Refold(pump + [s]);
    }

    /** The head of the pump list, with its slot. */
    method Unlist(ghost m: Machine) returns (e: SocketEntry)
      requires Holds(m) && m.loop.pump != []
      modifies pumpList, table.entries`pumpNext
      ensures Holds(m.(loop := m.loop.(pump := m.loop.pump[1..])))
      ensures m.loop.pump[0] < table.slots.Length && table.slots[m.loop.pump[0]] == e
    {
      Unfold(m.loop.pump);
      e := pumpList.Pop();
      table.Relinked();
      commands.Undisturbed();
      events.Undisturbed();
      Refold(m.loop.pump[1..]);
    }

    /** The entry object of a slot takes a step. */
    method Step(s: nat, input: Input, ghost o: Outcome, ghost m: Machine) returns (freed: bool, actions: seq<Action>)
      requires Holds(m) && Occupied(m.table, s) && Yields(m.table.slots[s].value, input, o) && (o.entry.None? ==> s !in m.loop.pump)
      modifies table`count, table`model, table`cells, table.slots, table.entries, table.queues, table.cells
      ensures Holds(m.(table := table.model)) && table.model == Place(m.table, s, o) && freed == o.entry.None? && actions == o.actions
      ensures old(table.cells) <= table.cells && fresh(table.cells - old(table.cells))
    {
      IsYield(m.table.slots[s].value, input, o);
      freed, actions := table.Operate(s, input);
      commands.Undisturbed();
      events.Undisturbed();
      StillThreaded(m.loop.pump);
    }

    lemma FreeUnlisted(pump: seq<nat>)
      requires table.Valid() && Threads(pump)
      ensures forall i :: 0 <= i < table.slots.Length && table.model.slots[i].None? ==> i !in pump
    {
      Unfold(pump);
      forall k | 0 <= k < |pump| ensures table.model.slots[pump[k]].Some? { table.Shows(pump[k]); }
    }

    method FillSlot(owner: nat, memory: bool, ghost m: Machine) returns (slot: Option<nat>)
      requires Holds(m)
      modifies table, table.slots, table.generations
      ensures Holds(m.(table := table.model)) && table.Grown() && (slot.Some? ==> slot.value !in m.loop.pump)
      ensures (slot, table.model) == SocketMachine.Reserve(m.table, owner, memory)
    {
      FreeUnlisted(m.loop.pump);
      slot := table.Reserve(owner, memory);
      commands.Undisturbed();
      events.Undisturbed();
      StillThreaded(m.loop.pump);
    }

    method ClearSlot(s: nat, n: nat, ghost m: Machine)
      requires Holds(m) && s < table.slots.Length && s !in m.loop.pump
      modifies table`count, table`model, table.slots
      ensures Holds(m.(table := m.table.(slots := m.table.slots[s := None], count := m.table.count - n)))
    {
      table.Clear(s, n);
      commands.Undisturbed();
      events.Undisturbed();
      StillThreaded(m.loop.pump);
    }

    // ---------- the model follows ----------

    /** The model moves on to a state that the lists and the table are in already; the scalar fields are the same. */
    ghost method Follow(m: Machine)
      requires Holds(m) && Scalars(m)
      requires {table, table.slots, table.generations, commands, events, pumpList} <= repr && this !in repr
      modifies this`model, this`repr
      ensures Matches() && model == m
      ensures repr == old(repr) + table.entries + table.queues + table.cells + commands.cells + events.cells
    {
      model := m;
      repr := repr + table.entries + table.queues + table.cells + commands.cells + events.cells;
      table.Undisturbed();
      commands.Undisturbed();
      events.Undisturbed();
      StillThreaded(m.loop.pump);
      Fits();
    }

    /** The scalar fields change, and the model with them. */
    method Assign(accepting: bool, exiting: bool, exitReady: bool, asyncOpen: bool, nextToken: nat, ghost m: Machine)
      requires Holds(m) && accepting == m.mail.accepting && exiting == m.loop.exiting && exitReady == m.loop.exitReady
      requires asyncOpen == m.loop.asyncOpen && nextToken == m.out.issued
      requires {table, table.slots, table.generations, commands, events, pumpList} <= repr && this !in repr
      modifies this
      ensures Matches() && model == m
      ensures repr == old(repr) + table.entries + table.queues + table.cells + commands.cells + events.cells
    {
      this.accepting, this.exiting, this.exitReady, this.asyncOpen, this.nextToken := accepting, exiting, exitReady, asyncOpen, nextToken;
      table.Undisturbed();
      commands.Undisturbed();
      events.Undisturbed();
      StillThreaded(m.loop.pump);
      Follow(m);
    }

    /** The scalar fields and the model change, and nothing else. */
    method Change(accepting: bool, exiting: bool, exitReady: bool, asyncOpen: bool, nextToken: nat, ghost m: Machine)
      requires Matches() && m.table == model.table && m.loop.pump == model.loop.pump
      requires m.mail.commands == model.mail.commands && m.out.events == model.out.events
      requires accepting == m.mail.accepting && exiting == m.loop.exiting && exitReady == m.loop.exitReady
      requires asyncOpen == m.loop.asyncOpen && nextToken == m.out.issued
      modifies this
      ensures Matches() && Grew() && model == m
    {
      Lists();
      Assign(accepting, exiting, exitReady, asyncOpen, nextToken, m);
    }

    /** The events of an operation are queued. */
    method Announce(actions: seq<Action>)
      requires Matches()
      modifies this, repr
      ensures Matches() && Grew()
      ensures model == old(model).(out := old(model.out).(events := old(model.out.events) + EventsIn(actions),
                                                          released := old(model.out.released) + ReleasedIn(actions)))
    {
      Lists();
      LinkEvents(actions, model);
      Follow(model.(out := model.out.(events := model.out.events + EventsIn(actions), released := model.out.released + ReleasedIn(actions))));
    }

    /** An event is queued, and buffers are released with it. */
    method Emit(event: Event, ghost released: seq<nat>)
      requires Matches()
      modifies this, repr
      ensures Matches() && Grew()
      ensures model == old(model).(out := old(model.out).(events := old(model.out.events) + [event],
                                                          released := old(model.out.released) + released))
    {
      Lists();
      OneEvent(event);
      LinkEvents([Emitted(event)], model);
      Follow(model.(out := model.out.(events := model.out.events + [event], released := model.out.released + released)));
    }

    /** The entry of a slot is scheduled. */
    method Schedule(s: nat)
      requires Matches() && Occupied(model.table, s) && s !in model.loop.pump
      modifies this, repr
      ensures Matches() && Grew() && model == old(model).(loop := old(model.loop).(pump := old(model.loop.pump) + [s]))
    {
      Lists();
      Enlist(s, model);
      Follow(model.(loop := model.loop.(pump := model.loop.pump + [s])));
    }

    /** Takes the head off the pump list; its identifier says which slot it is in. */
    method PopPump() returns (s: nat)
      requires Matches() && Calm(model) && model.loop.pump != []
      modifies this, repr
      ensures Matches() && Grew() && s == old(model.loop.pump)[0]
      ensures model == old(model).(loop := old(model.loop).(pump := old(model.loop.pump)[1..]))
    {
      Lists();
      ghost var first := model.loop.pump[0];
      var e := Unlist(model);
      table.Shows(first);
      CalmTable(model);
      SlotOfId(model.table, first);
      s := IdSlot(table.bits, e.id);
      Follow(model.(loop := model.loop.(pump := model.loop.pump[1..])));
    }

    /** update_exit_ready. */
    method CheckExit()
      requires Matches()
      modifies this
      ensures Matches() && Grew() && model == old(model).(loop := ExitCheck(old(model.loop), old(model.table.count)))
    {
      var none := NoEntries();
      Change(accepting, exiting, exitReady || (exiting && none), asyncOpen, nextToken,
             model.(loop := ExitCheck(model.loop, model.table.count)));
    }

    method NoEntries() returns (none: bool)
      requires Matches()
      ensures none == (model.table.count == 0)
    {
      Lists();
      none := table.count == 0;
    }

    /** The entry of a slot takes a step; the lists do not follow yet. */
    method Turn(s: nat, input: Input, ghost o: Outcome) returns (freed: bool, actions: seq<Action>)
      requires Matches() && Occupied(model.table, s) && Yields(model.table.slots[s].value, input, o)
      requires o.entry.None? ==> s !in model.loop.pump
      modifies this, repr
      ensures Matches() && Grew() && freed == o.entry.None? && actions == o.actions
      ensures model == old(model).(table := Place(old(model.table), s, o))
    {
      Lists();
      freed, actions := Step(s, input, o, model);
      assert table.entries <= repr && table.queues <= repr && commands.cells <= repr && events.cells <= repr;
      Follow(model.(table := table.model));
    }

    /** reserve_entry. */
    method Reserve(owner: nat, memory: bool) returns (slot: Option<nat>)
      requires Matches()
      modifies this, repr
      ensures Matches() && Grew() && (slot.Some? ==> slot.value !in model.loop.pump)
      ensures (slot, model) == var r := SocketMachine.Reserve(old(model.table), owner, memory); (r.0, old(model).(table := r.1))
    {
      Lists();
      slot := FillSlot(owner, memory, model);
      Follow(model.(table := table.model));
    }

    /** Empties a slot and takes n off the count. */
    method Drop(s: nat, n: nat)
      requires Matches() && s < table.slots.Length && s !in model.loop.pump
      modifies this, repr
      ensures Matches() && Grew()
      ensures model == old(model).(table := old(model.table).(slots := old(model.table.slots)[s := None], count := old(model.table.count) - n))
    {
      Lists();
      ClearSlot(s, n, model);
      Follow(model.(table := table.model));
    }

    /** A command is linked behind the last one. */
    method Enqueue(c: Command, open: bool)
      requires Matches()
      modifies this, repr
      ensures Matches() && Grew()
      ensures model == old(model).(mail := Mail(old(model.mail.commands) + [c], open, old(model.mail.taken) + [c]))
    {
      Lists();
      LinkCommand(c, model);
      Assign(open, exiting, exitReady, asyncOpen, nextToken,
             model.(mail := Mail(model.mail.commands + [c], open, model.mail.taken + [c])));
    }

    /** skyuv_socket_command_queue_pop. */
    method Pop() returns (c: Command)
      requires Matches() && model.mail.commands != []
      modifies this, repr
      ensures Matches() && Grew() && c == old(model.mail.commands)[0]
      ensures model == old(model).(mail := old(model.mail).(commands := old(model.mail.commands)[1..]))
    {
      Lists();
      c := UnlinkCommand(model);
      Follow(model.(mail := model.mail.(commands := model.mail.commands[1..])));
    }

    /** The oldest event is handed out. */
    method PopEvent() returns (event: Event)
      requires Matches() && model.out.events != []
      modifies this, repr
      ensures Matches() && Grew() && event == old(model.out.events)[0]
      ensures model == old(model).(out := old(model.out).(events := old(model.out.events)[1..]))
    {
      Lists();
      event := UnlinkEvent(model);
      Follow(model.(out := model.out.(events := model.out.events[1..])));
    }

    // ---------- looking at the lists and the entries ----------

    method HasCommand() returns (some: bool)
      requires Matches()
      ensures some == (model.mail.commands != [])
    {
      Lists();
      commands.EmptyHead();
      some := commands.head != null;
    }

    method HasPump() returns (some: bool)
      requires Matches()
      ensures some == (model.loop.pump != [])
    {
      Lists();
      Unfold(model.loop.pump);
      pumpList.EmptyHead();
      some := pumpList.head != null;
    }

    method HasEvent() returns (some: bool)
      requires Matches()
      ensures some == (model.out.events != [])
    {
      Lists();
      events.EmptyHead();
      some := events.head != null;
    }

    /** find_entry. */
    method Find(id: int) returns (slot: Option<nat>)
      requires Matches()
      ensures slot == FindEntry(model.table, id)
    {
      Lists();
      slot := table.Find(id);
    }

    method IsTaken(k: nat) returns (taken: bool)
      requires Matches() && k < table.slots.Length
      ensures taken == model.table.slots[k].Some?
    {
      Lists();
      table.Shows(k);
      taken := table.slots[k] != null;
    }

    /** The identifier, the owner and the handle flag of the entry in a slot. */
    method Look(s: nat) returns (id: int, owner: nat, initialized: bool)
      requires Matches() && Occupied(model.table, s)
      ensures var e := model.table.slots[s].value; id == e.id && owner == e.owner && initialized == e.initialized
    {
      Lists();
      table.Shows(s);
      var e := table.slots[s];
      id, owner, initialized := e.id, e.owner, e.initialized;
    }

    // ---------- one operation on one slot ----------

    /** What a step of an entry does to the runtime around it: events in order, the pump list, and the exit check. */
    method Settle(s: nat, freed: bool, actions: seq<Action>)
      requires Matches() && (Schedulings(actions) > 0 ==> Occupied(model.table, s) && s !in model.loop.pump)
      modifies this, repr
      ensures Matches() && Grew() && model == Around(old(model), s, freed, actions)
    {
      Announce(actions);
      if Schedulings(actions) > 0 { Schedule(s); } else { assert model.loop.pump + [] == model.loop.pump; }
      if freed { CheckExit(); }
    }

    method Apply(s: nat, input: Input, ghost o: Outcome)
      requires Matches() && Occupied(model.table, s) && Yields(model.table.slots[s].value, input, o) && Listable(model, s, o)
      modifies this, repr
      ensures Matches() && Grew() && model == Carry(old(model), s, o)
    {
      CarryIs(model, s, o);
      var freed, actions := Turn(s, input, o);
      Settle(s, freed, actions);
    }

    /** One command or callback on the entry of a slot. */
    method Deliver(s: nat, input: Input)
      requires Matches() && Calm(model) && Takes(model, s, input)
      modifies this, repr
      ensures Matches() && Grew() && Calm(model) && Delivers(old(model), s, input, model)
    {
      ghost var o := Outcomes(model, s, input);
      Apply(s, input, o);
    }

    // ---------- API calls ----------

    /** skyuv_socket_command_queue_push. */
    method Push(c: Command) returns (code: Code)
      requires Matches()
      modifies this, repr
      ensures Matches() && Grew()
      ensures (model.mail, code) == SocketMachine.Push(old(model.mail), c) && model == old(model).(mail := model.mail)
    {
      if !accepting || c.order.Quit? { return InvalidState; }
      Enqueue(c, true);
      code := Ok;
    }

    /** skyuv_socket_command_queue_stop. */
    method Stop() returns (code: Code)
      requires Matches()
      modifies this, repr
      ensures Matches() && Grew()
      ensures (model.mail, code) == SocketMachine.Stop(old(model.mail)) && model == old(model).(mail := model.mail)
    {
      if !accepting { return InvalidState; }
      Enqueue(Command(0, Quit), false);
      code := Ok;
    }

    /** discard_uninitialized_entry. */
    method Discard(s: nat)
      requires Matches() && s < table.slots.Length && s !in model.loop.pump
      modifies this, repr
      ensures Matches() && Grew() && model == SocketMachine.Discard(old(model), s)
    {
      Drop(s, 1);
      CheckExit();
    }

    /** listen, connect, bind and udp. */
    method Open(order: Order, owner: nat, entryMemory: bool, commandMemory: bool) returns (code: Code, id: int)
      requires Valid() && IsOpen(order) && Serving(model.loop)
      modifies this, repr
      ensures Valid() && Grew() && (model, code, id) == ApiOpen(old(model), order, owner, entryMemory, commandMemory)
    {
      CallKept(model, CallOpen(order, owner, entryMemory, commandMemory));
      var slot := Reserve(owner, entryMemory);
      if slot.None? { return OutOfMemory, 0; }
      code, id := OpenSlot(slot.value, order, commandMemory);
    }

    /** The call once its slot is reserved. */
    method OpenSlot(slot: nat, order: Order, commandMemory: bool) returns (code: Code, id: int)
      requires Matches() && Occupied(model.table, slot) && slot !in model.loop.pump
      modifies this, repr
      ensures Matches() && Grew() && (model, code, id) == OpenWith(old(model), slot, old(model.table), order, commandMemory)
    {
      if !commandMemory {
        Discard(slot);
        return OutOfMemory, 0;
      }
      var owner, initialized;
      id, owner, initialized := Look(slot);
      code := Push(Command(id, order));
      if code != Ok {
        Discard(slot);
        id := 0;
      }
    }

    /** start, pause, nodelay, close, shutdown and udp_connect. */
    method Plain(id: int, order: Order, memory: bool) returns (code: Code)
      requires Valid() && IsPlain(order) && Serving(model.loop)
      modifies this, repr
      ensures Valid() && Grew() && (model, code) == ApiPlain(old(model), id, order, memory)
    {
      CallKept(model, CallPlain(id, order, memory));
      if id <= 0 { return InvalidArgument; }
      if !memory { return OutOfMemory; }
      code := Push(Command(id, order));
    }

    /** send, send_low and udp_send. `released` are the buffers the runtime frees before it returns. */
    method Send(id: int, priority: Priority, address: Option<seq<byte>>, size: nat, ownership: Ownership,
                copyMemory: bool, commandMemory: bool) returns (code: Code, released: seq<nat>)
      requires Valid() && Serving(model.loop)
      modifies this, repr
      ensures Valid() && Grew() && model.out.released == old(model.out.released) + released
      ensures (model, code) == ApiSend(old(model), id, priority, address, size, ownership, copyMemory, commandMemory)
    {
      CallKept(model, CallSend(id, priority, address, size, ownership, copyMemory, commandMemory));
      assert model.out.released + [] == model.out.released;
      if id <= 0 || size > UINT_MAX || (address.None? && size == 0)
         || (address.Some? && |address.value| != 0 && |address.value| != 7 && |address.value| != 19) {
        return InvalidArgument, [];
      }
      if ownership.Borrowed? && !copyMemory { return OutOfMemory, []; }
      var b := Buffer(nextToken, size);
      if !commandMemory {
        released := if ownership.Borrowed? then [b.token] else [];
        Issue(|released|, released);
        return OutOfMemory, released;
      }
      code, released := Submit(SendCommand(id, priority, address, b), ownership);
    }

    /** A send command is submitted; a refused one is destroyed, after an OWNED buffer has been taken back from it. */
    method Submit(c: Command, ownership: Ownership) returns (code: Code, released: seq<nat>)
      requires Matches() && CarriesBuffer(c.order)
      modifies this, repr
      ensures Matches() && Grew() && code == SocketMachine.Push(old(model.mail), c).1
      ensures released == if code == Ok then [] else Destroyed(if ownership.Owned? then GivenBack(c) else c)
      ensures var out := old(model.out);
              model == old(model).(mail := SocketMachine.Push(old(model.mail), c).0,
                                   out := out.(issued := out.issued + if code == Ok || ownership.Borrowed? then 1 else 0,
                                               released := out.released + released))
    {
      code := Push(c);
      if code == Ok {
        released := [];
        Issue(1, released);
      } else {
        released := Destroyed(if ownership.Owned? then GivenBack(c) else c);
        Issue(if ownership.Borrowed? then 1 else 0, released);
      }
    }

    /** Buffers the runtime becomes answerable for, and buffers it frees. */
    method Issue(n: nat, ghost released: seq<nat>)
      requires Matches()
      modifies this
      ensures Matches() && Grew()
      ensures model == old(model).(out := old(model.out).(issued := old(model.out.issued) + n,
                                                          released := old(model.out.released) + released))
    {
      Change(accepting, exiting, exitReady, asyncOpen, nextToken + n,
             model.(out := model.out.(issued := model.out.issued + n, released := model.out.released + released)));
    }

    method Exit(memory: bool) returns (code: Code)
      requires Valid() && Serving(model.loop)
      modifies this, repr
      ensures Valid() && Grew() && (model, code) == ApiExit(old(model), memory)
    {
      CallKept(model, CallExit(memory));
      if !memory { return OutOfMemory; }
      code := Stop();
    }

    // ---------- the loop thread ----------

    /** One slot of process_exit. */
    method ShutSlot(k: nat)
      requires Matches() && Calm(model) && k < table.slots.Length
      modifies this, repr
      ensures Matches() && Grew() && Calm(model) && ShutsSlot(old(model), k, model)
    {
      ghost var before := model;
      var taken := IsTaken(k);
      if taken {
        Closes(model, k);
        Deliver(k, ExitNow);
      }
      SlotShut(before, k, model);
    }

    /** The loop of process_exit. */
    method ShutSlots()
      requires Matches() && Calm(model)
      modifies this, repr
      ensures Matches() && Grew() && ExitsOn(old(model), model, table.slots.Length)
    {
      ghost var start := model;
      ExitsFirst(start);
      var k := 0;
      while k < table.slots.Length
        invariant k <= table.slots.Length && Matches() && Grew() && Calm(model) && ExitsOn(start, model, k)
      {
        ghost var before := model;
        ShutSlot(k);
        ExitsMore(start, before, k, model);
        k := k + 1;
      }
    }

    /** process_exit: every slot in turn. */
    method ProcessExit()
      requires Matches() && Calm(model)
      modifies this, repr
      ensures Matches() && Grew() && Quits(old(model), model)
    {
      ghost var first := model;
      Change(accepting, true, exitReady, asyncOpen, nextToken, model.(loop := model.loop.(exiting := true)));
      CalmAlike(first, model);
      ShutSlots();
      ExitsLast(first, model);
      EndExit();
    }

    /** The end of process_exit: the async handle is closed. */
    method EndExit()
      requires Matches()
      modifies this
      ensures Matches() && Grew()
      ensures model == old(model).(loop := ExitCheck(old(model.loop).(asyncOpen := false), old(model.table.count)))
    {
      Change(accepting, exiting, exitReady, false, nextToken, model.(loop := model.loop.(asyncOpen := false)));
      CheckExit();
    }

    /** A command whose socket is gone. */
    method Answer(c: Command)
      requires Matches()
      modifies this, repr
      ensures Matches() && Grew() && model == old(model).(out := Missing(old(model.out), c))
    {
      if c.order.Begin? {
        Emit(Event(Error, c.id, c.order.owner, UV_EINVAL, [], 0), Destroyed(c));
      } else if c.order.Write? || c.order.DatagramSend? {
        Emit(Event(Error, c.id, 0, UV_ENOTCONN, [], 0), Destroyed(c));
      } else {
        assert model.out.events + [] == model.out.events && model.out.released + [] == model.out.released;
      }
    }

    /** What consume_commands does with a command it has taken. */
    method Serve(c: Command, env: Env)
      requires Matches() && Calm(model) && Sendworthy(c)
      modifies this, repr
      ensures Matches() && Grew() && Serves(old(model), c, env, model)
    {
      if c.order.Quit? {
        ProcessExit();
      } else {
        var slot := Find(c.id);
        if slot.None? {
          Answer(c);
        } else {
          Addressed(model, c, slot.value, env);
          Deliver(slot.value, ToInput(c.order, env));
        }
      }
    }

    /** One round of the first loop of consume_commands. */
    method TakeOne(env: Env)
      requires Valid() && model.loop.phase.Draining? && model.mail.commands != []
      modifies this, repr
      ensures Valid() && Grew() && Moves(old(model), TakeCommand(env), model)
      ensures model.mail.commands == old(model.mail.commands)[1..] && model.loop.phase.Draining?
    {
      ghost var before := model;
      HeadSendworthy(model);
      KeptCalm(model);
      var c := Pop();
      CalmAlike(before, model);
      Serve(c, env);
      Served(before, c, env, model);
      MoveKept(before, TakeCommand(env), model);
    }

    /** One round of the second loop of consume_commands. */
    method PumpOne(env: Env)
      requires Valid() && model.loop.phase.Pumping? && model.loop.pump != []
      modifies this, repr
      ensures Valid() && Grew() && Moves(old(model), TakePump(env), model)
      ensures model.loop == old(model.loop).(pump := old(model.loop.pump)[1..]) && model.mail == old(model.mail)
    {
      ghost var before := model;
      ghost var o := PumpOutcome(model, env);
      KeptCalm(model);
      var s := PopPump();
      Apply(s, Pump(env), o);
      MoveKept(before, TakePump(env), model);
    }

    /** Where the loop thread is; nothing stored changes with it. */
    ghost method Enter(step: Step, phase: Phase, start: Machine, done: seq<Step>) returns (steps: seq<Step>)
      requires Valid() && Reaches(start, done, model) && Moves(model, step, model.(loop := model.loop.(phase := phase)))
      modifies this`model, this`repr
      ensures Valid() && Grew() && steps == done + [step] && Reaches(start, steps, model)
      ensures model == old(model).(loop := old(model.loop).(phase := phase))
    {
      steps := done + [step];
      ghost var m := model.(loop := model.loop.(phase := phase));
      MoveKept(model, step, m);
      ReachesMore(start, done, model, step, m);
      Lists();
      Follow(m);
    }

    /** The first loop of consume_commands. */
    method Drain(answers: nat -> Env, ghost start: Machine, ghost done: seq<Step>) returns (k: nat, ghost steps: seq<Step>)
      requires Valid() && model.loop.phase.Draining? && Reaches(start, done, model)
      modifies this, repr
      ensures Valid() && Grew() && model.loop.phase.Draining? && Reaches(start, steps, model) && model.mail.commands == []
      ensures Extends(done, steps)
    {
      k, steps := 0, done;
      var more := HasCommand();
      while more
        invariant Valid() && Grew() && Reaches(start, steps, model) && model.loop.phase.Draining? && Extends(done, steps)
        invariant more == (model.mail.commands != [])
        decreases |model.mail.commands|
      {
        ghost var before := model;
        TakeOne(answers(k));
        ReachesMore(start, steps, before, TakeCommand(answers(k)), model);
        steps := steps + [TakeCommand(answers(k))];
        k := k + 1;
        more := HasCommand();
      }
    }

    /** The second loop of consume_commands. */
    method PumpAll(answers: nat -> Env, from: nat, ghost start: Machine, ghost done: seq<Step>)
      returns (k: nat, ghost steps: seq<Step>)
      requires Valid() && model.loop.phase.Pumping? && Reaches(start, done, model)
      modifies this, repr
      ensures Valid() && Grew() && model.loop.phase.Pumping? && Reaches(start, steps, model) && model.loop.pump == []
      ensures Extends(done, steps) && model.mail.commands == old(model.mail.commands)
    {
      k, steps := from, done;
      var more := HasPump();
      while more
        invariant Valid() && Grew() && Reaches(start, steps, model) && model.loop.phase.Pumping? && Extends(done, steps)
        invariant more == (model.loop.pump != []) && model.mail.commands == old(model.mail.commands)
        decreases |model.loop.pump|
      {
        ghost var before := model;
        PumpOne(answers(k));
        ReachesMore(start, steps, before, TakePump(answers(k)), model);
        steps := steps + [TakePump(answers(k))];
        k := k + 1;
        more := HasPump();
      }
    }

    /** consume_commands up to its second loop. */
    method DrainBatch(answers: nat -> Env) returns (k: nat, ghost steps: seq<Step>)
      requires Valid() && model.loop.phase.Idle? && asyncOpen
      modifies this, repr
      ensures Valid() && Grew() && Reaches(old(model), steps, model) && model.loop.phase.Pumping?
      ensures model.mail.commands == [] && Extends([BatchStart], steps)
    {
      ghost var start := model;
      ReachesSelf(start);
      BatchStarts(model);
      steps := Enter(BatchStart, Draining, start, []);
      k, steps := Drain(answers, start, steps);
      DrainEnds(model, answers(k));
      steps := Enter(TakeCommand(answers(k)), Pumping, start, steps);
    }

    /** consume_commands: one batch, from the first command to the last pumped write. `answers` is what the
        environment says to each round. When it ends both lists are empty. */
    method ConsumeCommands(answers: nat -> Env) returns (ghost steps: seq<Step>)
      requires Valid() && model.loop.phase.Idle? && asyncOpen
      modifies this, repr
      ensures Valid() && Grew() && Reaches(old(model), steps, model) && model.loop.phase.Idle?
      ensures model.mail.commands == [] && model.loop.pump == [] && Extends([BatchStart], steps)
      ensures commands.head == null && commands.tail == null && pumpList.head == null && pumpList.tail == null
    {
      ghost var start := model;
      var k;
      k, steps := DrainBatch(answers);
      k, steps := PumpAll(answers, k, start, steps);
      PumpEnds(model, answers(k));
      steps := Enter(TakePump(answers(k)), Idle, start, steps);
      NothingLinked();
    }

    lemma NothingLinked()
      requires Matches() && model.mail.commands == [] && model.loop.pump == []
      ensures commands.head == null && commands.tail == null && pumpList.head == null && pumpList.tail == null
    {
      Lists();
      commands.EmptyHead();
      Unfold([]);
      pumpList.EmptyHead();
    }

    /** A callback of libuv. */
    method Callback(s: nat, input: Input)
      requires Valid() && CanStep(model, SocketMachine.Callback(s, input))
      modifies this, repr
      ensures Valid() && Grew() && Moves(old(model), SocketMachine.Callback(s, input), model)
    {
      ghost var before := model;
      CalledBack(model, s, input);
      KeptCalm(model);
      Deliver(s, input);
      MoveKept(before, SocketMachine.Callback(s, input), model);
    }

    /** accept_connection. */
    method AcceptConnection(s: nat, env: Env)
      requires Valid() && CanStep(model, PeerAccepted(s, env))
      modifies this, repr
      ensures Valid() && Grew() && Moves(old(model), PeerAccepted(s, env), model)
    {
      ghost var before := model;
      AcceptParts(model, s, env);
      KeptCalm(model);
      var id, owner, initialized := Look(s);
      CalmReserve(model, owner, env.memory);
      var slot := Reserve(owner, env.memory);
      if slot.Some? { AcceptGuest(s, slot.value, env); }
      MoveKept(before, PeerAccepted(s, env), model);
    }

    /** accept_connection with the slot of the new connection. */
    method AcceptGuest(s: nat, slot: nat, env: Env)
      requires Matches() && Calm(model) && Guest(model, s, slot)
      modifies this, repr
      ensures Matches() && Grew() && Accepts(old(model), s, slot, env, model)
    {
      ghost var before := model;
      var id, owner, initialized := Look(slot);
      GuestEnters(model, s, slot, env);
      Deliver(slot, AcceptedAs(env));
      ghost var between := model;
      if env.init == 0 && env.open == 0 {
        HostHears(before, s, slot, env, model);
        Deliver(s, PeerArrived(id));
      }
      GuestAccepted(before, s, slot, env, between, model);
    }

    /** skyuv_socket_runtime_poll with something ready: queued events come before EXIT. */
    method Poll() returns (event: Event)
      requires Valid() && CanStep(model, CallPoll)
      modifies this, repr
      ensures Valid() && Grew() && (model, event) == SocketMachine.Poll(old(model))
    {
      CallKept(model, CallPoll);
      var some := HasEvent();
      if some {
        event := PopEvent();
      } else {
        event := Event(EventKind.Exit, 0, 0, 0, [], 0);
        Change(accepting, exiting, false, asyncOpen, nextToken, SocketMachine.Poll(model).0);
      }
    }

    /** One slot of a release. */
    method Vacate(k: nat)
      requires Matches() && Calm(model) && model.loop.pump == [] && k < table.slots.Length
      modifies this, repr
      ensures Matches() && Grew() && Vacates(old(model), k, model)
    {
      ghost var before := model;
      var taken := IsTaken(k);
      if taken {
        var id, owner, initialized := Look(k);
        if initialized {
          Closes(model, k);
          Deliver(k, ExitNow);
        } else {
          Drop(k, 0);
        }
      }
      SlotVacated(before, k, model);
    }

    /** The first loop of skyuv_socket_runtime_release. */
    method VacateSlots()
      requires Valid() && model.loop.phase.Idle?
      modifies this, repr
      ensures Matches() && Grew() && ReleasesOn(old(model), model, table.slots.Length)
    {
      ghost var start := model;
      ReleaseStarts(model);
      var k := 0;
      while k < table.slots.Length
        invariant k <= table.slots.Length && Matches() && Grew() && ReleasesOn(start, model, k)
      {
        ghost var before := model;
        Vacate(k);
        ReleasesMore(start, before, k, model);
        k := k + 1;
      }
    }

    /** skyuv_socket_runtime_release up to its uv_run loop. */
    method BeginRelease()
      requires Valid() && model.loop.phase.Idle?
      modifies this, repr
      ensures Valid() && Grew() && Moves(old(model), CallRelease, model)
    {
      ghost var start := model;
      VacateSlots();
      ReleaseBegun(start, model);
      Change(accepting, exiting, exitReady, false, nextToken, model.(loop := model.loop.(phase := Releasing, asyncOpen := false)));
      MoveKept(start, CallRelease, model);
    }

    /** The end of skyuv_socket_runtime_release. */
    method EndRelease() returns (released: seq<nat>)
      requires Valid() && CanStep(model, FinishRelease)
      modifies this, repr
      ensures Valid() && Grew() && model == Next(old(model), FinishRelease)
      ensures model.out.released == old(model.out.released) + released && commands.head == null
    {
      CallKept(model, FinishRelease);
      ghost var m := ReleaseEnd(model);
      Lists();
      released := UnlinkCommands(model);
      commands.EmptyHead();
      Assign(false, exiting, exitReady, asyncOpen, nextToken, m);
    }
  }
}
