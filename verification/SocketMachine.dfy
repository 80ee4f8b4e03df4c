/** The server socket runtime as a state machine: API calls from worker threads, the command queue, one
    loop thread that drains it in batches and pumps writes, libuv callbacks, polling, exit and release.

    A step is one API call, one command or pump turn of a batch, one callback, or one poll, so API calls
    interleave with a batch at every command boundary. */
module SocketMachine {
  import opened Bytes
  import opened Options
  import opened SocketEntries
  import opened SocketIds
  import opened EntryTraces
  import Udp = UdpAddresses

  /** What a command asks for. */
  datatype Order =
    | OpenListen | OpenConnect | OpenBind | OpenDatagram
    | DatagramTarget(to: Udp.SockAddr)
    | DatagramSend(address: seq<byte>, buffer: Buffer, ownership: Ownership)
    | Begin(owner: nat)
    | Hold
    | NoDelay
    | Write(priority: Priority, buffer: Buffer, ownership: Ownership)
    | Shut(force: bool, owner: nat)
    | Quit

  datatype Command = Command(id: int, order: Order)

  /** The slot table, and per slot the trace of its present or latest socket and how often it was reserved. */
  datatype Table = Table(
    bits: nat, slots: seq<Option<Entry>>, generations: seq<nat>, cursor: nat, count: int,
    traces: seq<seq<Action>>, reserved: seq<nat>)

  /** The command queue, and everything it ever took. */
  datatype Mail = Mail(commands: seq<Command>, accepting: bool, taken: seq<Command>)

  /** What the loop thread is doing: waiting in libuv, consuming commands, pumping writes, or tearing down. */
  datatype Phase = Idle | Draining | Pumping | Releasing | Gone

  datatype Loop = Loop(phase: Phase, pump: seq<nat>, exiting: bool, exitReady: bool, asyncOpen: bool)

  /** Queued events, EXIT events handed out, buffers issued so far, and tokens released, in order. */
  datatype Output = Output(events: seq<Event>, exits: nat, issued: nat, released: seq<nat>)

  datatype Machine = Machine(table: Table, mail: Mail, loop: Loop, out: Output)

  datatype Code = Ok | InvalidArgument | InvalidState | OutOfMemory

  function Init(bits: nat): (m: Machine)
    requires IsSlotBits(bits)
  {
    var n := SlotCount(bits);
    Machine(
      Table(bits, seq(n, i => None), seq(n, i => 0), 0, 0, seq(n, i => []), seq(n, i => 0)),
      Mail([], true, []),
      Loop(Idle, [], false, false, true),
      Output([], 0, 0, []))
  }

  // ---------- effects of a trace on the rest of the runtime ----------

  function ReleasedIn(trace: seq<Action>): (s: seq<nat>) {
    if trace == [] then [] else (if trace[0].Released? then [trace[0].token] else []) + ReleasedIn(trace[1..])
  }

  function EventsIn(trace: seq<Action>): (s: seq<Event>) {
    if trace == [] then [] else (if trace[0].Emitted? then [trace[0].event] else []) + EventsIn(trace[1..])
  }

  function Schedulings(trace: seq<Action>): (n: nat) {
    if trace == [] then 0 else (if trace[0].Scheduled? then 1 else 0) + Schedulings(trace[1..])
  }

  // ---------- the slot table ----------

  function FindEntry(tb: Table, id: int): (slot: Option<nat>)
    requires IsSlotBits(tb.bits) && |tb.slots| == SlotCount(tb.bits)
    ensures slot.Some? ==> slot.value < |tb.slots| && tb.slots[slot.value].Some? && tb.slots[slot.value].value.id == id
  {
    IdSlotIsRemainder(tb.bits, id);
    var s := IdSlot(tb.bits, id);
    if tb.slots[s].None? || tb.slots[s].value.id != id then None else Some(s)
  }

  ghost predicate Sizes(tb: Table) {
    && IsSlotBits(tb.bits) && |tb.slots| == SlotCount(tb.bits) && tb.cursor < UINT32
    && |tb.generations| == |tb.traces| == |tb.reserved| == |tb.slots|
  }

  /** reserve_entry: the table with a fresh entry in the slot found, or only the cursor moved. */
  function Reserve(tb: Table, owner: nat, memory: bool): (r: (Option<nat>, Table))
    requires Sizes(tb)
    ensures r.0.Some? ==> r.0.value < |tb.slots| && tb.slots[r.0.value].None?
    ensures Sizes(r.1) && |r.1.slots| == |tb.slots|
    ensures r.0.Some? ==> r.1.slots[r.0.value].Some?
  {
    var (found, next) := Scan(tb.bits, tb.slots, tb.cursor, 0);
    if found.None? || !memory then (None, tb.(cursor := next)) else
    var s := found.value;
    var generation := NextGeneration(tb.generations[s]);
    var e := Fresh(IdMake(tb.bits, s, generation), owner);
    (Some(s), Table(tb.bits, tb.slots[s := Some(e)], tb.generations[s := generation], next, tb.count + 1,
                    tb.traces[s := []], tb.reserved[s := tb.reserved[s] + 1]))
  }

  /** The table after an operation on a slot; freeing the entry takes it off the count. */
  function Place(tb: Table, s: nat, o: Outcome): (tb': Table)
    requires Sizes(tb) && s < |tb.slots|
    ensures Sizes(tb')
  {
    tb.(slots := tb.slots[s := o.entry], count := tb.count - (if o.entry.None? then 1 else 0),
        traces := tb.traces[s := tb.traces[s] + o.actions])
  }

  /** update_exit_ready. */
  function ExitCheck(lp: Loop, count: int): (lp': Loop) {
    if lp.exiting && count == 0 then lp.(exitReady := true) else lp
  }

  /** What an operation on a slot does to the runtime around it. */
  function Carry(m: Machine, s: nat, o: Outcome): (m': Machine)
    requires Sizes(m.table) && s < |m.table.slots|
    ensures Sizes(m'.table) && |m'.table.slots| == |m.table.slots|
  {
    var tb := Place(m.table, s, o);
    var lp := m.loop.(pump := m.loop.pump + if Schedulings(o.actions) > 0 then [s] else []);
    Machine(tb, m.mail, if o.entry.None? then ExitCheck(lp, tb.count) else lp,
            m.out.(events := m.out.events + EventsIn(o.actions), released := m.out.released + ReleasedIn(o.actions)))
  }

  function Deliver(m: Machine, s: nat, input: Input): (m': Machine)
    requires Sizes(m.table) && s < |m.table.slots| && m.table.slots[s].Some?
    requires Enabled(m.table.slots[s].value, input)
    ensures Sizes(m'.table) && |m'.table.slots| == |m.table.slots|
  {
    Carry(m, s, Perform(m.table.slots[s].value, input))
  }

  /** discard_uninitialized_entry, for an entry no command has reached. */
  function Discard(m: Machine, s: nat): (m': Machine)
    requires Sizes(m.table) && s < |m.table.slots|
    ensures Sizes(m'.table)
  {
    var tb := m.table.(slots := m.table.slots[s := None], count := m.table.count - 1);
    m.(table := tb, loop := ExitCheck(m.loop, tb.count))
  }

  // ---------- API calls ----------

  predicate IsOpen(order: Order) {
    order.OpenListen? || order.OpenConnect? || order.OpenBind? || order.OpenDatagram?
  }

  /** Commands that carry neither a buffer nor a new socket. */
  predicate IsPlain(order: Order) {
    order.Begin? || order.Hold? || order.NoDelay? || order.Shut? || order.DatagramTarget?
  }

  /** skyuv_socket_command_queue_push, which never takes EXIT. */
  function Push(q: Mail, c: Command): (r: (Mail, Code)) {
    if !q.accepting || c.order.Quit? then (q, InvalidState)
    else (q.(commands := q.commands + [c], taken := q.taken + [c]), Ok)
  }

  /** skyuv_socket_command_queue_stop: EXIT goes in last and closes the queue. */
  function Stop(q: Mail): (r: (Mail, Code)) {
    var c := Command(0, Quit);
    if !q.accepting then (q, InvalidState)
    else (Mail(q.commands + [c], false, q.taken + [c]), Ok)
  }

  /** The call once its slot is reserved: queue the command, or give the slot back. */
  function OpenWith(m: Machine, slot: nat, tb: Table, order: Order, commandMemory: bool): (r: (Machine, Code, int))
    requires Sizes(tb) && Occupied(tb, slot)
  {
    var m1 := m.(table := tb);
    if !commandMemory then (Discard(m1, slot), OutOfMemory, 0)
    else
      var id := tb.slots[slot].value.id;
      var (q, code) := Push(m.mail, Command(id, order));
      if code != Ok then (Discard(m1, slot), code, 0) else (m1.(mail := q), Ok, id)
  }

  /** listen, connect, bind and udp. */
  function ApiOpen(m: Machine, order: Order, owner: nat, entryMemory: bool, commandMemory: bool): (r: (Machine, Code, int))
    requires Sizes(m.table)
  {
    var (slot, tb) := Reserve(m.table, owner, entryMemory);
    if slot.None? then (m.(table := tb), OutOfMemory, 0) else OpenWith(m, slot.value, tb, order, commandMemory)
  }

  function ApiPlain(m: Machine, id: int, order: Order, memory: bool): (r: (Machine, Code)) {
    if id <= 0 then (m, InvalidArgument)
    else if !memory then (m, OutOfMemory)
    else
      var (q, code) := Push(m.mail, Command(id, order));
      (m.(mail := q), code)
  }

  const UINT_MAX: nat := 0xffff_ffff

  predicate CarriesBuffer(order: Order) { order.Write? || order.DatagramSend? }

  /** skyuv_socket_command_destroy: a send command releases its buffer exactly if it is still marked OWNED. */
  function Destroyed(c: Command): (released: seq<nat>) {
    if CarriesBuffer(c.order) && c.order.ownership.Owned? then [c.order.buffer.token] else []
  }

  /** The caller takes the buffer of a command back. */
  function GivenBack(c: Command): (c': Command)
    requires CarriesBuffer(c.order)
  {
    c.(order := c.order.(ownership := Borrowed))
  }

  function SendCommand(id: int, priority: Priority, address: Option<seq<byte>>, b: Buffer): (c: Command) {
    Command(id, if address.None? then Write(priority, b, Owned) else DatagramSend(address.value, b, Owned))
  }

  /** runtime_send and skyuv_socket_runtime_udp_send; `address` is `None` for a stream send. A BORROWED buffer is copied
      first, and the copy is what the command carries; an OWNED one is handed back when the command is refused. A
      token is issued for every buffer the runtime becomes answerable for. */
  function ApiSend(m: Machine, id: int, priority: Priority, address: Option<seq<byte>>, size: nat,
                   ownership: Ownership, copyMemory: bool, commandMemory: bool): (r: (Machine, Code))
  {
    if id <= 0 || size > UINT_MAX || (address.None? && size == 0)
       || (address.Some? && |address.value| !in {0, 7, 19}) then (m, InvalidArgument)
    else if ownership.Borrowed? && !copyMemory then (m, OutOfMemory)
    else
      var b := Buffer(m.out.issued, size);
      var copies := if ownership.Borrowed? then 1 else 0;
      if !commandMemory then
        (m.(out := m.out.(issued := m.out.issued + copies, released := m.out.released + if copies == 1 then [b.token] else [])), OutOfMemory)
      else
        var c := SendCommand(id, priority, address, b);
        var (q, code) := Push(m.mail, c);
        if code == Ok then (m.(mail := q, out := m.out.(issued := m.out.issued + 1)), Ok)
        else
          var refused := if ownership.Owned? then GivenBack(c) else c;
          (m.(out := m.out.(issued := m.out.issued + copies, released := m.out.released + Destroyed(refused))), code)
  }

  function ApiExit(m: Machine, memory: bool): (r: (Machine, Code)) {
    if !memory then (m, OutOfMemory)
    else
      var (q, code) := Stop(m.mail);
      (m.(mail := q), code)
  }

  // ---------- the loop thread ----------

  function ToInput(order: Order, env: Env): (input: Input)
    requires !order.Quit?
  {
    match order
    case OpenListen => Listen(env)
    case OpenConnect => Connect(env)
    case OpenBind => Bind(env)
    case OpenDatagram => OpenUdp(env)
    case DatagramTarget(to) => ConnectUdp(to, env)
    case DatagramSend(address, b, ownership) => SendTo(address, b, ownership, env)
    case Begin(owner) => Start(owner, env)
    case Hold => Pause(env)
    case NoDelay => Nodelay
    case Write(p, b, ownership) => Send(p, b, ownership, env)
    case Shut(force, owner) => CloseIt(force, owner)
  }

  /** A command whose socket is gone: START and sends answer with an error, and the command is destroyed. */
  function Missing(out: Output, c: Command): (out': Output) {
    var events := match c.order
                  case Begin(owner) => [Event(Error, c.id, owner, UV_EINVAL, [], 0)]
                  case Write(_, _, _) => [Event(Error, c.id, 0, UV_ENOTCONN, [], 0)]
                  case DatagramSend(_, _, _) => [Event(Error, c.id, 0, UV_ENOTCONN, [], 0)]
                  case _ => [];
    out.(events := out.events + events, released := out.released + Destroyed(c))
  }

  /** The slots from k on, as process_exit meets them. */
  function ExitFrom(m: Machine, k: nat): (m': Machine)
    requires Sizes(m.table) && k <= |m.table.slots|
    ensures Sizes(m'.table) && |m'.table.slots| == |m.table.slots|
    decreases |m.table.slots| - k
  {
    if k == |m.table.slots| then m
    else ExitFrom(if m.table.slots[k].Some? then Deliver(m, k, ExitNow) else m, k + 1)
  }

  function ProcessQuit(m: Machine): (m': Machine)
    requires Sizes(m.table)
    ensures Sizes(m'.table)
  {
    var m1 := ExitFrom(m.(loop := m.loop.(exiting := true)), 0);
    m1.(loop := ExitCheck(m1.loop.(asyncOpen := false), m1.table.count))
  }

  /** A queued stream send is never empty, since the API refuses it, and a queued send owns its buffer. */
  predicate Sendworthy(c: Command) {
    (c.order.Write? ==> c.order.buffer.size > 0) && (CarriesBuffer(c.order) ==> c.order.ownership.Owned?)
  }

  /** One command of a batch; an empty queue ends the draining. */
  function Consume(m: Machine, env: Env): (m': Machine)
    requires Sizes(m.table) && (m.mail.commands != [] ==> Sendworthy(m.mail.commands[0]))
  {
    if m.mail.commands == [] then m.(loop := m.loop.(phase := Pumping))
    else
      var c := m.mail.commands[0];
      var m1 := m.(mail := m.mail.(commands := m.mail.commands[1..]));
      if c.order.Quit? then ProcessQuit(m1)
      else
        match FindEntry(m.table, c.id)
        case None => m1.(out := Missing(m.out, c))
        case Some(s) => Deliver(m1, s, ToInput(c.order, env))
  }

  /** One turn of the pump loop; an empty list ends the batch. */
  function PumpNext(m: Machine, env: Env): (m': Machine)
    requires Sizes(m.table)
    requires m.loop.pump != [] ==>
               && m.loop.pump[0] < |m.table.slots| && m.table.slots[m.loop.pump[0]].Some?
               && m.table.slots[m.loop.pump[0]].value.pumpPending
  {
    if m.loop.pump == [] then m.(loop := m.loop.(phase := Idle))
    else Deliver(m.(loop := m.loop.(pump := m.loop.pump[1..])), m.loop.pump[0], Pump(env))
  }

  /** The callbacks of libuv. */
  predicate IsCallback(input: Input) {
    input.GotData? || input.GotEof? || input.ReadFailed? || input.GotDatagram? || input.ConnectEnded? || input.AcceptFailed?
    || input.WriteEnded? || input.DatagramEnded? || input.HandleGone?
  }

  /** accept_connection once the new connection has its slot: the listener reports a connection that came up. */
  function AcceptWith(m: Machine, s: nat, slot: nat, env: Env): (m': Machine)
    requires Sizes(m.table) && Occupied(m.table, s) && m.table.slots[s].value.state.Listening?
    requires s != slot && Occupied(m.table, slot) && m.table.slots[slot].value.state.Reserved?
  {
    var id := m.table.slots[slot].value.id;
    var m' := Deliver(m, slot, AcceptedAs(env));
    if env.init == 0 && env.open == 0 then Deliver(m', s, PeerArrived(id)) else m'
  }

  /** accept_connection. */
  function AcceptPeer(m: Machine, s: nat, env: Env): (m': Machine)
    requires Sizes(m.table) && Occupied(m.table, s) && m.table.slots[s].value.state.Listening?
  {
    var (slot, tb) := Reserve(m.table, m.table.slots[s].value.owner, env.memory);
    if slot.None? then m.(table := tb) else AcceptWith(m.(table := tb), s, slot.value, env)
  }

  /** skyuv_socket_runtime_poll once something is ready: a queued event first, else the EXIT event. */
  function Poll(m: Machine): (r: (Machine, Event)) {
    if m.out.events != [] then (m.(out := m.out.(events := m.out.events[1..])), m.out.events[0])
    else (m.(loop := m.loop.(exitReady := false), out := m.out.(exits := m.out.exits + 1)), Event(Exit, 0, 0, 0, [], 0))
  }

  /** skyuv_socket_runtime_release, first loop: close every handle, free what has none. */
  function ReleaseFrom(m: Machine, k: nat): (m': Machine)
    requires Sizes(m.table) && k <= |m.table.slots|
    ensures Sizes(m'.table) && |m'.table.slots| == |m.table.slots|
    decreases |m.table.slots| - k
  {
    if k == |m.table.slots| then m
    else if m.table.slots[k].None? then ReleaseFrom(m, k + 1)
    else if !m.table.slots[k].value.initialized then
      ReleaseFrom(m.(table := m.table.(slots := m.table.slots[k := None])), k + 1)
    else ReleaseFrom(Deliver(m, k, ExitNow), k + 1)
  }

  function ReleaseBegin(m: Machine): (m': Machine)
    requires Sizes(m.table)
  {
    var m1 := ReleaseFrom(m, 0);
    m1.(loop := m1.loop.(phase := Releasing, asyncOpen := false))
  }

  /** What the destruction of queued commands releases. */
  function Buffers(commands: seq<Command>): (s: seq<nat>) {
    if commands == [] then [] else Destroyed(commands[0]) + Buffers(commands[1..])
  }

  /** The end of the release, when every close callback has run: the command queue is destroyed. */
  function ReleaseEnd(m: Machine): (m': Machine) {
    m.(mail := m.mail.(commands := [], accepting := false), loop := m.loop.(phase := Gone),
       out := m.out.(released := m.out.released + Buffers(m.mail.commands)))
  }

  // ---------- steps ----------

  datatype Step =
    | CallOpen(order: Order, owner: nat, entryMemory: bool, commandMemory: bool)
    | CallPlain(id: int, order: Order, memory: bool)
    | CallSend(id: int, priority: Priority, address: Option<seq<byte>>, size: nat, ownership: Ownership,
               copyMemory: bool, commandMemory: bool)
    | CallExit(memory: bool)
    | BatchStart
    | TakeCommand(env: Env)
    | TakePump(env: Env)
    | Callback(slot: nat, input: Input)
    | PeerAccepted(slot: nat, env: Env)
    | CallPoll
    | CallRelease
    | FinishRelease

  predicate Occupied(tb: Table, s: nat) { s < |tb.slots| && tb.slots[s].Some? }

  /** When a step can be taken. Callbacks run only while the loop waits in libuv, never inside a batch. */
  ghost predicate CanStep(m: Machine, step: Step) {
    && Sizes(m.table)
    && match step
       case CallOpen(order, _, _, _) => IsOpen(order) && Serving(m.loop)
       case CallPlain(_, order, _) => IsPlain(order) && Serving(m.loop)
       case CallSend(_, _, _, _, _, _, _) => Serving(m.loop)
       case CallExit(_) => Serving(m.loop)
       case BatchStart => m.loop.phase.Idle? && m.loop.asyncOpen
       case TakeCommand(_) => m.loop.phase.Draining? && (m.mail.commands != [] ==> Sendworthy(m.mail.commands[0]))
       case TakePump(_) => m.loop.phase.Pumping? && PumpReady(m)
       case Callback(s, input) =>
         (m.loop.phase.Idle? || m.loop.phase.Releasing?) && Occupied(m.table, s) && IsCallback(input)
         && Enabled(m.table.slots[s].value, input)
       case PeerAccepted(s, _) => m.loop.phase.Idle? && Occupied(m.table, s) && m.table.slots[s].value.state.Listening?
       case CallPoll => m.loop.phase.Idle? && (m.out.events != [] || m.loop.exitReady)
       case CallRelease => m.loop.phase.Idle?
       case FinishRelease => m.loop.phase.Releasing? && forall s :: 0 <= s < |m.table.slots| ==> m.table.slots[s].None?
  }

  predicate Serving(lp: Loop) { lp.phase.Idle? || lp.phase.Draining? || lp.phase.Pumping? }

  predicate PumpReady(m: Machine) {
    m.loop.pump != [] ==> Occupied(m.table, m.loop.pump[0]) && m.table.slots[m.loop.pump[0]].value.pumpPending
  }

  function Next(m: Machine, step: Step): (m': Machine)
    requires CanStep(m, step)
  {
    match step
    case CallOpen(order, owner, a, b) => ApiOpen(m, order, owner, a, b).0
    case CallPlain(id, order, memory) => ApiPlain(m, id, order, memory).0
    case CallSend(id, p, address, size, ownership, a, b) => ApiSend(m, id, p, address, size, ownership, a, b).0
    case CallExit(memory) => ApiExit(m, memory).0
    case BatchStart => m.(loop := m.loop.(phase := Draining))
    case TakeCommand(env) => Consume(m, env)
    case TakePump(env) => PumpNext(m, env)
    case Callback(s, input) => Deliver(m, s, input)
    case PeerAccepted(s, env) => AcceptPeer(m, s, env)
    case CallPoll => Poll(m).0
    case CallRelease => ReleaseBegin(m)
    case FinishRelease => ReleaseEnd(m)
  }
}
