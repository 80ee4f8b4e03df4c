/** One socket of the server runtime as a value: its fields, and what each command and each libuv
    callback makes of them. Everything an operation does outside the entry (events, buffer releases,
    libuv calls) is returned as a list of actions, in order.

    Results of libuv calls and of memory allocation are inputs (`Env`), so every outcome the
    environment may choose is covered. */
module SocketEntries {
  import opened Bytes
  import opened Options
  import Bits
  import Udp = UdpAddresses

  const MIB: nat := 0x10_0000
  const INT_MAX: int := 0x7fff_ffff
  const UV_ENOMEM: int := -12
  const UV_EINVAL: int := -22
  const UV_EDESTADDRREQ: int := -89
  const UV_ENOTCONN: int := -107
  const UV_ECANCELED: int := -125

  /** A send buffer: the identity of its allocation and its length. */
  datatype Buffer = Buffer(token: nat, size: nat)

  /** Whether the destruction of a command releases the buffer it carries. */
  datatype Ownership = Borrowed | Owned

  datatype Priority = High | Low

  datatype SocketState =
    | Reserved | ListenPending | Listening | Connecting | AcceptedPaused
    | Connected | ConnectedPaused | HalfCloseRead | Udp | Closing

  /** The libuv handle inside an entry: not initialised, open, or passed to uv_close. */
  datatype Handle = Absent | Open | Shut

  datatype EventKind = Data | Close | Opened | Accept | Error | Exit | Datagram | Warning

  datatype Event = Event(kind: EventKind, id: int, owner: nat, value: int, data: seq<byte>, size: nat)

  /** The writing side of an entry. The write in flight and the datagrams are requests libuv holds. */
  datatype Writer = Writer(
    high: seq<Buffer>, low: seq<Buffer>, inflight: Option<Buffer>, datagrams: seq<Buffer>,
    queuedBytes: int, warnSize: nat, writeBytes: nat)

  /** A socket. `handle` and `connectPending` are what libuv keeps about it. */
  datatype Entry = Entry(
    id: int, owner: nat, state: SocketState, initialized: bool, isUdp: bool, target: Option<Udp.SockAddr>,
    reading: bool, readBytes: nat, closeRequested: bool, pumpPending: bool,
    handle: Handle, connectPending: bool, out: Writer)

  /** What the environment answers: address parsing, handle initialisation, bind/listen/connect/accept,
      uv_read_start or uv_read_stop, uv_write or uv_udp_send, allocation, and the bound port. */
  datatype Env = Env(address: int, init: int, open: int, read: int, write: int, memory: bool, port: int)

  /** `Accepted`: a write entered a queue. `Tried`: it was handed to uv_write, which took it or refused.
      `Completed` and `Delivered`: a TCP write or a datagram came back. `Released`: a buffer was freed.
      `Scheduled`: the entry was appended to the pump list. */
  datatype Action =
    | Accepted(priority: Priority, buffer: Buffer)
    | Tried(priority: Priority, buffer: Buffer, taken: bool)
    | Completed(buffer: Buffer)
    | Delivered(buffer: Buffer)
    | Released(token: nat)
    | Emitted(event: Event)
    | Entered(state: SocketState)
    | HandleClosed
    | Scheduled

  /** The entry afterwards (`None` once freed) and what was done. */
  datatype Outcome = Outcome(entry: Option<Entry>, actions: seq<Action>)

  /** An intermediate result that cannot free the entry. */
  datatype Part = Part(entry: Entry, actions: seq<Action>)

  predicate Sendable(state: SocketState) {
    state.Connected? || state.ConnectedPaused? || state.HalfCloseRead?
  }

  function Fresh(id: int, owner: nat): (e: Entry) {
    Entry(id, owner, Reserved, false, false, None, false, 0, false, false, Absent, false, Writer([], [], None, [], 0, 0, 0))
  }

  function Emit(e: Entry, kind: EventKind, value: int): (a: Action) {
    Emitted(Event(kind, e.id, e.owner, value, [], 0))
  }

  function Keep(e: Entry): (o: Outcome) { Outcome(Some(e), []) }

  /** set_entry_state(CLOSING) and uv_close, which every path that closes a handle shares. */
  function ShutHandle(e: Entry): (p: Part) {
    Part(e.(state := Closing, handle := Shut), [Entered(Closing), HandleClosed])
  }

  function Reject(e: Entry, error: int): (o: Outcome) {
    var p := ShutHandle(e);
    Outcome(Some(p.entry), [Emit(e, Error, error)] + p.actions)
  }

  function Finish(e: Entry, kind: EventKind, value: int): (p: Part) {
    if e.state.Closing? then Part(e, []) else
    var p := ShutHandle(e);
    Part(p.entry, [Emit(e, kind, value)] + p.actions)
  }

  function CloseAfterWrites(e: Entry): (p: Part) {
    if !e.closeRequested || e.out.inflight.Some? || e.out.high != [] || e.out.low != [] then Part(e, [])
    else ShutHandle(e)
  }

  // ---------- commands ----------

  function ProcessListen(e: Entry, env: Env): (o: Outcome) {
    if !e.state.Reserved? then Keep(e) else
    var e1 := e.(state := ListenPending);
    if env.address != 0 then Outcome(None, [Entered(ListenPending), Emit(e, Error, env.address)])
    else if env.init != 0 then Outcome(None, [Entered(ListenPending), Emit(e, Error, env.init)])
    else
      var e2 := e1.(initialized := true, handle := Open);
      if env.open != 0 then
        var r := Reject(e2, env.open);
        Outcome(r.entry, [Entered(ListenPending)] + r.actions)
      else Outcome(Some(e2.(state := Listening)), [Entered(ListenPending), Entered(Listening), Emit(e, Opened, env.port)])
  }

  function ProcessConnect(e: Entry, env: Env): (o: Outcome) {
    if !e.state.Reserved? then Keep(e)
    else if env.address != 0 then Outcome(None, [Emit(e, Error, env.address)])
    else if env.init != 0 then Outcome(None, [Emit(e, Error, env.init)])
    else
      var e1 := e.(initialized := true, handle := Open, state := Connecting);
      if env.open != 0 then
        var r := Reject(e1, env.open);
        Outcome(r.entry, [Entered(Connecting)] + r.actions)
      else Outcome(Some(e1.(connectPending := true)), [Entered(Connecting)])
  }

  function ProcessBind(e: Entry, env: Env): (o: Outcome) {
    if !e.state.Reserved? then Keep(e)
    else if env.init != 0 then Outcome(None, [Emit(e, Error, env.init)])
    else
      var e1 := e.(initialized := true, handle := Open);
      var result := if env.open != 0 then env.open else env.read;
      if result != 0 then Reject(e1, result)
      else Outcome(Some(e1.(reading := true, state := Connected)), [Entered(Connected), Emit(e, Opened, 0)])
  }

  function ProcessUdp(e: Entry, env: Env): (o: Outcome) {
    if !e.state.Reserved? then Keep(e)
    else if env.address != 0 then Outcome(None, [Emit(e, Error, env.address)])
    else if env.init != 0 then Outcome(None, [Emit(e, Error, env.init)])
    else
      var e1 := e.(isUdp := true, initialized := true, handle := Open);
      var result := if env.open != 0 then env.open else env.read;
      if result != 0 then Reject(e1, result)
      else Outcome(Some(e1.(state := Udp)), [Entered(Udp)])
  }

  function ProcessUdpConnect(e: Entry, target: Udp.SockAddr, env: Env): (o: Outcome) {
    if e.state.Udp? && env.address == 0 then Keep(e.(target := Some(target))) else Keep(e)
  }

  function ProcessStart(e: Entry, owner: nat, env: Env): (o: Outcome) {
    var e1 := e.(owner := owner);
    if e.state.Listening? || e.state.Connected? then Outcome(Some(e1), [Emit(e1, Opened, 0)])
    else if !e.state.AcceptedPaused? && !e.state.ConnectedPaused? then Outcome(Some(e), [Emit(e1, Error, UV_EINVAL)])
    else if env.read != 0 then Reject(e1, env.read)
    else Outcome(Some(e1.(reading := true, state := Connected)), [Entered(Connected), Emit(e1, Opened, 0)])
  }

  function ProcessPause(e: Entry, env: Env): (o: Outcome) {
    if !e.state.Connected? then Keep(e)
    else if env.read != 0 then Outcome(Some(e), [Emit(e, Error, env.read)])
    else Outcome(Some(e.(reading := false, state := ConnectedPaused)), [Entered(ConnectedPaused)])
  }

  /** The value of a non-zero WARNING event: kibibytes, rounded up, capped at INT_MAX. */
  function WarningValue(queued: int): (kb: int) {
    var kb := (queued + 1023) / 1024;
    if kb > INT_MAX then INT_MAX else kb
  }

  /** The threshold check that follows an enqueue. */
  predicate WarningDue(w: Writer) { w.queuedBytes >= MIB && w.queuedBytes >= w.warnSize }

  function Warn(e: Entry): (p: Part) {
    if WarningDue(e.out) then
      Part(e.(out := e.out.(warnSize := if e.out.warnSize == 0 then 2 * MIB else 2 * e.out.warnSize)),
           [Emit(e, Warning, WarningValue(e.out.queuedBytes))])
    else Part(e, [])
  }

  /** Puts the entry on the pump list unless a write is in flight or it is there already. */
  function Schedule(e: Entry): (p: Part) {
    if e.out.inflight.None? && !e.pumpPending then Part(e.(pumpPending := true), [Scheduled]) else Part(e, [])
  }

  function Enqueue(w: Writer, p: Priority, b: Buffer): (w': Writer) {
    if p.Low? then w.(low := w.low + [b], queuedBytes := w.queuedBytes + b.size)
    else w.(high := w.high + [b], queuedBytes := w.queuedBytes + b.size)
  }

  /** What the handler of a send command leaves: the entry, what was done, and the ownership field of the command,
      which a handler that has taken the buffer over sets to BORROWED. */
  datatype Handled = Handled(entry: Entry, actions: seq<Action>, ownership: Ownership)

  /** skyuv_socket_command_destroy on a send command. */
  function Destroy(b: Buffer, ownership: Ownership): (actions: seq<Action>) {
    if ownership.Owned? then [Released(b.token)] else []
  }

  /** A handled command is destroyed. */
  function Dispose(h: Handled, b: Buffer): (o: Outcome) { Outcome(Some(h.entry), h.actions + Destroy(b, h.ownership)) }

  /** A send that cannot be served: the command keeps its buffer. */
  function Decline(e: Entry, ownership: Ownership, owner: nat, error: int): (h: Handled) {
    Handled(e, [Emitted(Event(Error, e.id, owner, error, [], 0))], ownership)
  }

  /** process_send; a datagram socket is passed on to process_udp_send. */
  function HandleSend(e: Entry, p: Priority, b: Buffer, ownership: Ownership, env: Env): (h: Handled) {
    if e.state.Udp? then HandleUdpSend(e, [], b, ownership, env)
    else if !Sendable(e.state) then Decline(e, ownership, 0, UV_ENOTCONN)
    else if e.closeRequested then Decline(e, ownership, 0, UV_ECANCELED)
    else if !env.memory then Decline(e, ownership, e.owner, UV_ENOMEM)
    else
      var w := Warn(e.(out := Enqueue(e.out, p, b)));
      var s := Schedule(w.entry);
      Handled(s.entry, [Accepted(p, b)] + w.actions + s.actions, Borrowed)
  }

  /** process_udp_send; an empty address stands for the connected target. */
  function HandleUdpSend(e: Entry, address: seq<byte>, b: Buffer, ownership: Ownership, env: Env): (h: Handled) {
    if !e.state.Udp? then Decline(e, ownership, 0, UV_ENOTCONN)
    else if address != [] && Udp.Decode(address).None? then Decline(e, ownership, e.owner, UV_EINVAL)
    else if address == [] && e.target.None? then Decline(e, ownership, e.owner, UV_EDESTADDRREQ)
    else if !env.memory then Decline(e, ownership, e.owner, UV_ENOMEM)
    else if env.write != 0 then Decline(e, ownership, e.owner, env.write)
    else Handled(e.(out := e.out.(datagrams := e.out.datagrams + [b])), [], Borrowed)
  }

  function ProcessSend(e: Entry, p: Priority, b: Buffer, ownership: Ownership, env: Env): (o: Outcome) {
    Dispose(HandleSend(e, p, b, ownership, env), b)
  }

  function ProcessUdpSend(e: Entry, address: seq<byte>, b: Buffer, ownership: Ownership, env: Env): (o: Outcome) {
    Dispose(HandleUdpSend(e, address, b, ownership, env), b)
  }

  /** CLOSE (`force` false) waits for queued TCP bytes; SHUTDOWN does not. */
  function ProcessClose(e: Entry, force: bool, owner: nat): (o: Outcome) {
    if e.state.Closing? then Keep(e) else
    var e1 := e.(owner := owner);
    var report := if e.state.HalfCloseRead? then [] else [Emit(e1, Close, 0)];
    if !e.initialized then Outcome(None, report)
    else if !force && !e.isUdp && e.out.queuedBytes > 0 then
      var p := CloseAfterWrites(e1.(reading := false, closeRequested := true));
      Outcome(Some(p.entry), report + p.actions)
    else
      var p := ShutHandle(e1);
      Outcome(Some(p.entry), report + p.actions)
  }

  /** What process_exit does to one occupied slot. */
  function ProcessExit(e: Entry): (o: Outcome) {
    if !e.initialized then Outcome(None, [])
    else if !e.handle.Shut? then var p := ShutHandle(e); Outcome(Some(p.entry), p.actions)
    else Keep(e)
  }

  // ---------- writing ----------

  /** pump_write when the next write is already taken off its queue. */
  function Submit(e: Entry, p: Priority, b: Buffer, result: int): (r: Part) {
    if result == 0 then Part(e.(out := e.out.(inflight := Some(b))), [Tried(p, b, true)])
    else
      var e1 := e.(out := e.out.(queuedBytes := e.out.queuedBytes - b.size));
      var f := if e.state.HalfCloseRead? then ShutHandle(e1) else Finish(e1, Error, result);
      Part(f.entry, [Tried(p, b, false), Released(b.token)] + f.actions)
  }

  function PumpWrite(e: Entry, env: Env): (p: Part) {
    if e.out.inflight.Some? then Part(e, [])
    else if e.out.high != [] then Submit(e.(out := e.out.(high := e.out.high[1..])), High, e.out.high[0], env.write)
    else if e.out.low != [] then Submit(e.(out := e.out.(low := e.out.low[1..])), Low, e.out.low[0], env.write)
    else Part(e, [])
  }

  /** One turn of the pump loop at the end of a batch. */
  function PumpTurn(e: Entry, env: Env): (o: Outcome) {
    var e1 := e.(pumpPending := false);
    if e.state.Closing? then Keep(e1) else
    var p := PumpWrite(e1, env);
    Outcome(Some(p.entry), p.actions)
  }

  /** A failed write closes the entry before it is accounted for. */
  function WriteFailure(e: Entry, status: int): (p: Part) {
    if status == 0 || e.state.Closing? then Part(e, [])
    else if e.state.HalfCloseRead? then ShutHandle(e)
    else Finish(e, Error, status)
  }

  function Account(w: Writer, b: Buffer): (w': Writer) {
    w.(queuedBytes := w.queuedBytes - b.size, writeBytes := w.writeBytes + b.size, inflight := None)
  }

  /** The zero WARNING sent when the queue has drained. */
  function Recover(e: Entry): (p: Part) {
    if e.out.queuedBytes == 0 && e.out.warnSize > 0 && !e.state.Closing? then
      Part(e.(out := e.out.(warnSize := 0)), [Emit(e, Warning, 0)])
    else Part(e, [])
  }

  /** The end of write_completed: a deferred close, or the next write. */
  function AfterWrite(e: Entry, env: Env): (p: Part) {
    if e.closeRequested then CloseAfterWrites(e)
    else if !e.state.Closing? then PumpWrite(e, env)
    else Part(e, [])
  }

  function WriteDone(e: Entry, status: int, env: Env): (o: Outcome)
    requires e.out.inflight.Some?
  {
    var b := e.out.inflight.value;
    var f := WriteFailure(e, status);
    var r := Recover(f.entry.(out := Account(f.entry.out, b)));
    var n := AfterWrite(r.entry, env);
    Outcome(Some(n.entry), f.actions + [Completed(b), Released(b.token)] + r.actions + n.actions)
  }

  function DatagramDone(e: Entry, i: nat, status: int): (o: Outcome)
    requires i < |e.out.datagrams|
  {
    var b := e.out.datagrams[i];
    var w := e.out.(datagrams := e.out.datagrams[..i] + e.out.datagrams[i + 1..], writeBytes := e.out.writeBytes + b.size);
    var report := if status != 0 && !e.state.Closing? then [Emit(e, Error, status)] else [];
    Outcome(Some(e.(out := w)), report + [Delivered(b), Released(b.token)])
  }

  // ---------- reading, connecting, closing ----------

  function ReadData(e: Entry, bytes: seq<byte>): (o: Outcome) {
    Outcome(Some(e.(readBytes := e.readBytes + |bytes|)), [Emitted(Event(Data, e.id, e.owner, 0, bytes, |bytes|))])
  }

  function ReadEof(e: Entry): (o: Outcome) {
    if e.state.HalfCloseRead? then Keep(e)
    else Outcome(Some(e.(reading := false, state := HalfCloseRead)), [Emit(e, Close, 0), Entered(HalfCloseRead)])
  }

  /** A read error of either transport. */
  function ReadError(e: Entry, status: int): (o: Outcome) {
    var p := Finish(e, Error, status);
    Outcome(Some(p.entry), p.actions)
  }

  function DatagramReceived(e: Entry, payload: seq<byte>, from: Udp.SockAddr): (o: Outcome)
    requires from.WellFormed()
  {
    Outcome(Some(e.(readBytes := e.readBytes + |payload|)),
            [Emitted(Event(Datagram, e.id, e.owner, Udp.AddressSize(from), Udp.Received(payload, from), |payload|))])
  }

  function ConnectDone(e: Entry, status: int, env: Env): (o: Outcome) {
    var e1 := e.(connectPending := false);
    if e.state.Closing? then Keep(e1)
    else if status != 0 then Reject(e1, status)
    else if env.read != 0 then Reject(e1, env.read)
    else Outcome(Some(e1.(reading := true, state := Connected)), [Entered(Connected), Emit(e1, Opened, 0)])
  }

  /** accept_connection, on the entry reserved for the new connection. */
  function AcceptInto(e: Entry, env: Env): (o: Outcome) {
    if env.init != 0 then Outcome(None, [])
    else
      var e1 := e.(initialized := true, handle := Open);
      if env.open != 0 then Reject(e1, env.open)
      else Outcome(Some(e1.(state := AcceptedPaused)), [Entered(AcceptedPaused)])
  }

  function ReleaseAll(buffers: seq<Buffer>): (actions: seq<Action>)
    ensures |actions| == |buffers|
  {
    if buffers == [] then [] else [Released(buffers[0].token)] + ReleaseAll(buffers[1..])
  }

  /** The close callback frees the entry and whatever its queues still hold. */
  function CloseDone(e: Entry): (o: Outcome) {
    Outcome(None, ReleaseAll(e.out.high) + ReleaseAll(e.out.low))
  }

  // ---------- everything that can happen to an entry ----------

  datatype Input =
    | Listen(env: Env)
    | Connect(env: Env)
    | Bind(env: Env)
    | OpenUdp(env: Env)
    | ConnectUdp(to: Udp.SockAddr, env: Env)
    | Start(owner: nat, env: Env)
    | Pause(env: Env)
    | Nodelay
    | Send(priority: Priority, buffer: Buffer, ownership: Ownership, env: Env)
    | SendTo(address: seq<byte>, buffer: Buffer, ownership: Ownership, env: Env)
    | CloseIt(force: bool, owner: nat)
    | ExitNow
    | Pump(env: Env)
    | GotData(bytes: seq<byte>)
    | GotEof
    | ReadFailed(status: int)
    | GotDatagram(payload: seq<byte>, from: Udp.SockAddr)
    | ConnectEnded(status: int, env: Env)
    | AcceptedAs(env: Env)
    | PeerArrived(id: int)
    | AcceptFailed(status: int)
    | WriteEnded(status: int, env: Env)
    | DatagramEnded(index: nat, status: int)
    | HandleGone

  /** When libuv may call back, and when the runtime itself gets to an entry. Commands are not restricted, except that
      a queued send is not empty and owns its buffer. */
  predicate Enabled(e: Entry, input: Input) {
    match input
    case Send(_, b, ownership, _) => b.size > 0 && ownership.Owned?
    case SendTo(_, _, ownership, _) => ownership.Owned?
    case Pump(_) => e.pumpPending
    case GotData(_) => e.reading && e.handle.Open?
    case GotEof => e.reading && e.handle.Open?
    case ReadFailed(_) => (e.reading || e.state.Udp?) && e.handle.Open?
    case GotDatagram(_, from) => e.state.Udp? && from.WellFormed()
    case ConnectEnded(_, _) => e.connectPending
    case AcceptedAs(_) => e.state.Reserved?
    case PeerArrived(_) => e.state.Listening?
    case AcceptFailed(_) => e.state.Listening?
    case WriteEnded(_, _) => e.out.inflight.Some?
    case DatagramEnded(i, _) => i < |e.out.datagrams|
    case HandleGone => e.handle.Shut? && e.out.inflight.None? && e.out.datagrams == [] && !e.connectPending && !e.pumpPending
    case _ => true
  }

  function Perform(e: Entry, input: Input): (o: Outcome)
    requires Enabled(e, input)
  {
    match input
    case Listen(env) => ProcessListen(e, env)
    case Connect(env) => ProcessConnect(e, env)
    case Bind(env) => ProcessBind(e, env)
    case OpenUdp(env) => ProcessUdp(e, env)
    case ConnectUdp(target, env) => ProcessUdpConnect(e, target, env)
    case Start(owner, env) => ProcessStart(e, owner, env)
    case Pause(env) => ProcessPause(e, env)
    case Nodelay => Keep(e)
    case Send(p, b, ownership, env) => ProcessSend(e, p, b, ownership, env)
    case SendTo(address, b, ownership, env) => ProcessUdpSend(e, address, b, ownership, env)
    case CloseIt(force, owner) => ProcessClose(e, force, owner)
    case ExitNow => ProcessExit(e)
    case Pump(env) => PumpTurn(e, env)
    case GotData(bytes) => ReadData(e, bytes)
    case GotEof => ReadEof(e)
    case ReadFailed(status) => ReadError(e, status)
    case GotDatagram(payload, from) => DatagramReceived(e, payload, from)
    case ConnectEnded(status, env) => ConnectDone(e, status, env)
    case AcceptedAs(env) => AcceptInto(e, env)
    case PeerArrived(id) => Outcome(Some(e), [Emit(e, Accept, id)])
    case AcceptFailed(status) => Outcome(Some(e), [Emit(e, Error, status)])
    case WriteEnded(status, env) => WriteDone(e, status, env)
    case DatagramEnded(i, status) => DatagramDone(e, i, status)
    case HandleGone => CloseDone(e)
  }
}
