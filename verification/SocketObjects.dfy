/** A socket entry as the object the loop thread works on: fields updated in place, and two linked queues of writes
    with head and tail pointers. Every command and callback is specified by the function of SocketEntries that it
    implements; the proofs are about the pointers behind the queues of that function. */
module SocketObjects {
  import opened Bytes
  import opened Options
  import opened LinkedQueues
  import opened SocketEntries
  import Udp = UdpAddresses

  /** What an operation leaves behind: nothing once the entry is freed. */
  function Left(freed: bool, e: Entry, actions: seq<Action>): (o: Outcome) {
    Outcome(if freed then None else Some(e), actions)
  }

  /** The queues without the write that is served next. */
  function Dequeue(w: Writer): (w': Writer) {
    if w.high != [] then w.(high := w.high[1..]) else if w.low != [] then w.(low := w.low[1..]) else w
  }

  class SocketEntry {
    const id: int
    var owner: nat
    var state: SocketState
    var initialized: bool
    var isUdp: bool
    var target: Option<Udp.SockAddr>
    var reading: bool
    var readBytes: nat
    var closeRequested: bool
    var pumpPending: bool
    var handle: Handle
    var connectPending: bool
    const high: Queue<Buffer>
    const low: Queue<Buffer>
    var inflight: Option<Buffer>
    var datagrams: seq<Buffer>
    var queuedBytes: int
    var warnSize: nat
    var writeBytes: nat
    /** The link of the runtime's pump list. */
    var pumpNext: SocketEntry?

    /** The two queues are well linked and share no node. */
    ghost predicate Valid()
      reads high, low, high.cells, low.cells
    {
      high != low && high.Valid() && low.Valid() && high.cells !! low.cells
    }

    ghost function View(): (e: Entry)
      reads this`owner, this`state, this`initialized, this`isUdp, this`target, this`reading, this`readBytes,
            this`closeRequested, this`pumpPending, this`handle, this`connectPending, this`inflight, this`datagrams,
            this`queuedBytes, this`warnSize, this`writeBytes, high, low
    {
      Entry(id, owner, state, initialized, isUdp, target, reading, readBytes, closeRequested, pumpPending, handle,
            connectPending, Writer(high.contents, low.contents, inflight, datagrams, queuedBytes, warnSize, writeBytes))
    }

    /** Every node of either queue. */
    ghost function Cells(): (s: set<Node<Buffer>>)
      reads high, low
    {
      high.cells + low.cells
    }

    /** The queues are well linked, and what they gained since is new. */
    twostate predicate Kept()
      reads high, low, high.cells, low.cells
    {
      Valid() && old(Cells()) <= Cells() && fresh(Cells() - old(Cells()))
    }

    constructor (id: int, owner: nat)
      ensures Valid() && View() == Fresh(id, owner) && pumpNext == null
      ensures fresh(high) && fresh(low) && Cells() == {}
    {
      this.id, this.owner, state, initialized, isUdp, target := id, owner, Reserved, false, false, None;
      reading, readBytes, closeRequested, pumpPending, handle, connectPending := false, 0, false, false, Absent, false;
      inflight, datagrams, queuedBytes, warnSize, writeBytes, pumpNext := None, [], 0, 0, 0, null;
      high := new Queue();
      low := new Queue();
    }

    method Shut() returns (actions: seq<Action>)
      modifies this`state, this`handle
      ensures Part(View(), actions) == ShutHandle(old(View()))
    {
      state, handle := Closing, Handle.Shut;
      actions := [Entered(Closing), HandleClosed];
    }

    /** finish_entry. */
    method Finish(kind: EventKind, value: int) returns (actions: seq<Action>)
      modifies this`state, this`handle
      ensures Part(View(), actions) == SocketEntries.Finish(old(View()), kind, value)
    {
      if state.Closing? { return []; }
      var event := Emitted(Event(kind, id, owner, value, [], 0));
      var shut := Shut();
      actions := [event] + shut;
    }

    /** close_after_writes. */
    method CloseAfterWrites() returns (actions: seq<Action>)
      requires Valid()
      modifies this`state, this`handle
      ensures Part(View(), actions) == SocketEntries.CloseAfterWrites(old(View()))
    {
      high.EmptyHead();
      low.EmptyHead();
      if !closeRequested || inflight.Some? || high.head != null || low.head != null { return []; }
      actions := Shut();
    }

    /** The uv_write call of pump_write, on a write already taken off its queue. */
    method Submit(priority: Priority, b: Buffer, result: int) returns (actions: seq<Action>)
      modifies this`inflight, this`queuedBytes, this`state, this`handle
      ensures Part(View(), actions) == SocketEntries.Submit(old(View()), priority, b, result)
    {
      if result == 0 {
        inflight := Some(b);
        return [Tried(priority, b, true)];
      }
      queuedBytes := queuedBytes - b.size;
      var closing: seq<Action>;
      if state.HalfCloseRead? { closing := Shut(); } else { closing := Finish(Error, result); }
      actions := [Tried(priority, b, false), Released(b.token)] + closing;
    }

    /** The first half of pump_write: the head of the high queue, else of the low one, is unlinked. */
    method TakeNext() returns (next: Option<(Priority, Buffer)>)
      requires Valid()
      modifies high, low, high.cells, low.cells
      ensures Kept()
      ensures next.None? <==> old(high.contents) == [] && old(low.contents) == []
      ensures next.None? ==> View() == old(View())
      ensures next.Some? ==> if old(high.contents) != [] then next.value == (High, old(high.contents)[0])
                             else next.value == (Low, old(low.contents)[0])
      ensures next.Some? ==> View() == old(View()).(out := Dequeue(old(View()).out))
    {
      high.EmptyHead();
      low.EmptyHead();
      if high.head != null {
        var b := high.Pop();
        next := Some((High, b));
      } else if low.head != null {
        var b := low.Pop();
        next := Some((Low, b));
      } else {
        next := None;
      }
    }

    /** pump_write: takes the next write off its queue and submits it. */
    method PumpWrite(env: Env) returns (actions: seq<Action>)
      requires Valid()
      modifies this`inflight, this`queuedBytes, this`state, this`handle, high, low, high.cells, low.cells
      ensures Kept() && Part(View(), actions) == SocketEntries.PumpWrite(old(View()), env)
    {
      if inflight.Some? { return []; }
      var next := TakeNext();
      if next.None? { return []; }
      actions := Submit(next.value.0, next.value.1, env.write);
    }

    /** Links a write behind the tail of the queue of its priority. */
    method Link(priority: Priority, b: Buffer)
      requires Valid()
      modifies high, low, high.cells, low.cells
      ensures Kept()
      ensures high.contents == old(high.contents) + (if priority.High? then [b] else [])
      ensures low.contents == old(low.contents) + (if priority.Low? then [b] else [])
    {
      if priority.Low? { low.Push(b); } else { high.Push(b); }
    }

    /** Appends to the queue of the priority. */
    method Append(priority: Priority, b: Buffer)
      requires Valid()
      modifies this`queuedBytes, high, low, high.cells, low.cells
      ensures Kept() && View() == old(View()).(out := Enqueue(old(View()).out, priority, b))
    {
      Link(priority, b);
      queuedBytes := queuedBytes + b.size;
    }

    method Warn() returns (actions: seq<Action>)
      modifies this`warnSize
      ensures Part(View(), actions) == SocketEntries.Warn(old(View()))
    {
      if queuedBytes < MIB || queuedBytes < warnSize { return []; }
      warnSize := if warnSize == 0 then 2 * MIB else 2 * warnSize;
      actions := [Emitted(Event(Warning, id, owner, WarningValue(queuedBytes), [], 0))];
    }

    method Schedule() returns (actions: seq<Action>)
      modifies this`pumpPending
      ensures Part(View(), actions) == SocketEntries.Schedule(old(View()))
    {
      if inflight.Some? || pumpPending { return []; }
      pumpPending := true;
      actions := [Scheduled];
    }

    /** process_udp_send; returns the ownership field of the command as it leaves it. */
    method SendTo(address: seq<byte>, b: Buffer, ownership: Ownership, env: Env) returns (left: Ownership, actions: seq<Action>)
      modifies this`datagrams
      ensures Handled(View(), actions, left) == HandleUdpSend(old(View()), address, b, ownership, env)
    {
      if !state.Udp? { return ownership, [Emitted(Event(Error, id, 0, UV_ENOTCONN, [], 0))]; }
      var error := 0;
      if address != [] && Udp.Decode(address).None? {
        error := UV_EINVAL;
      } else if address == [] && target.None? {
        error := UV_EDESTADDRREQ;
      } else if !env.memory {
        error := UV_ENOMEM;
      } else {
        error := env.write;
      }
      if error != 0 { return ownership, [Emitted(Event(Error, id, owner, error, [], 0))]; }
      datagrams := datagrams + [b];
      left, actions := Borrowed, [];
    }

    /** process_send: enqueue, check the threshold, get on the pump list. */
    method Send(priority: Priority, b: Buffer, ownership: Ownership, env: Env) returns (left: Ownership, actions: seq<Action>)
      requires Valid()
      modifies this`datagrams, this`queuedBytes, this`warnSize, this`pumpPending, high, low, high.cells, low.cells
      ensures Kept() && Handled(View(), actions, left) == HandleSend(old(View()), priority, b, ownership, env)
    {
      if state.Udp? {
        left, actions := SendTo([], b, ownership, env);
        return;
      }
      if !Sendable(state) { return ownership, [Emitted(Event(Error, id, 0, UV_ENOTCONN, [], 0))]; }
      if closeRequested { return ownership, [Emitted(Event(Error, id, 0, UV_ECANCELED, [], 0))]; }
      if !env.memory { return ownership, [Emitted(Event(Error, id, owner, UV_ENOMEM, [], 0))]; }
      Append(priority, b);
      var warning := Warn();
      var scheduling := Schedule();
      left, actions := Borrowed, [Accepted(priority, b)] + warning + scheduling;
    }

    /** write_completed. */
    method WriteCompleted(status: int, env: Env) returns (actions: seq<Action>)
      requires Valid() && inflight.Some?
      modifies this`inflight, this`queuedBytes, this`writeBytes, this`warnSize, this`state, this`handle, high, low, high.cells, low.cells
      ensures Kept() && Outcome(Some(View()), actions) == WriteDone(old(View()), status, env)
    {
      var done := inflight.value;
      var failure := Fail(status);
      Account(done);
      var recovery := Recover();
      var rest := Continue(env);
      actions := failure + [Completed(done), Released(done.token)] + recovery + rest;
    }

    method Account(b: Buffer)
      modifies this`queuedBytes, this`writeBytes, this`inflight
      ensures View() == old(View()).(out := SocketEntries.Account(old(View()).out, b))
    {
      queuedBytes, writeBytes, inflight := queuedBytes - b.size, writeBytes + b.size, None;
    }

    /** The end of write_completed. */
    method Continue(env: Env) returns (actions: seq<Action>)
      requires Valid()
      modifies this`inflight, this`queuedBytes, this`state, this`handle, high, low, high.cells, low.cells
      ensures Kept() && Part(View(), actions) == AfterWrite(old(View()), env)
    {
      actions := [];
      if closeRequested {
        actions := CloseAfterWrites();
      } else if !state.Closing? {
        actions := PumpWrite(env);
      }
    }

    /** What write_completed does first when the write failed. */
    method Fail(status: int) returns (actions: seq<Action>)
      modifies this`state, this`handle
      ensures Part(View(), actions) == WriteFailure(old(View()), status)
    {
      actions := [];
      if status != 0 && !state.Closing? {
        if state.HalfCloseRead? { actions := Shut(); } else { actions := Finish(Error, status); }
      }
    }

    method Recover() returns (actions: seq<Action>)
      modifies this`warnSize
      ensures Part(View(), actions) == SocketEntries.Recover(old(View()))
    {
      actions := [];
      if queuedBytes == 0 && warnSize > 0 && !state.Closing? {
        warnSize := 0;
        actions := [Emitted(Event(Warning, id, owner, 0, [], 0))];
      }
    }

    /** process_close. */
    method Close(force: bool, newOwner: nat) returns (freed: bool, actions: seq<Action>)
      requires Valid()
      modifies this`owner, this`reading, this`closeRequested, this`state, this`handle
      ensures Left(freed, View(), actions) == ProcessClose(old(View()), force, newOwner)
    {
      if state.Closing? { return false, []; }
      owner := newOwner;
      actions := if state.HalfCloseRead? then [] else [Emitted(Event(EventKind.Close, id, owner, 0, [], 0))];
      freed := !initialized;
      if freed { return; }
      var closing := CloseNow(force);
      actions := actions + closing;
    }

    /** The end of process_close: at once, or after the writes. */
    method CloseNow(force: bool) returns (actions: seq<Action>)
      requires Valid()
      modifies this`reading, this`closeRequested, this`state, this`handle
      ensures Part(View(), actions)
              == if !force && !old(isUdp) && old(queuedBytes) > 0
                 then SocketEntries.CloseAfterWrites(old(View()).(reading := false, closeRequested := true)) else ShutHandle(old(View()))
    {
      if !force && !isUdp && queuedBytes > 0 {
        reading, closeRequested := false, true;
        actions := CloseAfterWrites();
      } else {
        actions := Shut();
      }
    }

    /** One slot of process_exit. */
    method ExitEntry() returns (freed: bool, actions: seq<Action>)
      modifies this`state, this`handle
      ensures Left(freed, View(), actions) == ProcessExit(old(View()))
    {
      freed, actions := !initialized, [];
      if initialized && !handle.Shut? { actions := Shut(); }
    }

    /** reject_entry. */
    method Reject(error: int) returns (actions: seq<Action>)
      modifies this`state, this`handle
      ensures Outcome(Some(View()), actions) == SocketEntries.Reject(old(View()), error)
    {
      var event := Emitted(Event(Error, id, owner, error, [], 0));
      var shut := Shut();
      actions := [event] + shut;
    }

    method Listen(env: Env) returns (freed: bool, actions: seq<Action>)
      modifies this`state, this`handle, this`initialized
      ensures Left(freed, View(), actions) == ProcessListen(old(View()), env)
    {
      if !state.Reserved? { return false, []; }
      state, actions := ListenPending, [Entered(ListenPending)];
      if env.address != 0 { return true, actions + [Emitted(Event(Error, id, owner, env.address, [], 0))]; }
      if env.init != 0 { return true, actions + [Emitted(Event(Error, id, owner, env.init, [], 0))]; }
      initialized, handle, freed := true, Open, false;
      if env.open != 0 {
        var rejected := Reject(env.open);
        return false, actions + rejected;
      }
      state := Listening;
      actions := actions + [Entered(Listening), Emitted(Event(Opened, id, owner, env.port, [], 0))];
    }

    method Connect(env: Env) returns (freed: bool, actions: seq<Action>)
      modifies this`state, this`handle, this`initialized, this`connectPending
      ensures Left(freed, View(), actions) == ProcessConnect(old(View()), env)
    {
      if !state.Reserved? { return false, []; }
      if env.address != 0 { return true, [Emitted(Event(Error, id, owner, env.address, [], 0))]; }
      if env.init != 0 { return true, [Emitted(Event(Error, id, owner, env.init, [], 0))]; }
      initialized, handle, state := true, Open, Connecting;
      freed, actions := false, [Entered(Connecting)];
      if env.open != 0 {
        var rejected := Reject(env.open);
        actions := actions + rejected;
      } else {
        connectPending := true;
      }
    }

    method Bind(env: Env) returns (freed: bool, actions: seq<Action>)
      modifies this`state, this`handle, this`initialized, this`reading
      ensures Left(freed, View(), actions) == ProcessBind(old(View()), env)
    {
      if !state.Reserved? { return false, []; }
      if env.init != 0 { return true, [Emitted(Event(Error, id, owner, env.init, [], 0))]; }
      initialized, handle, freed := true, Open, false;
      var result := if env.open != 0 then env.open else env.read;
      if result != 0 {
        actions := Reject(result);
      } else {
        reading, state := true, Connected;
        actions := [Entered(Connected), Emitted(Event(Opened, id, owner, 0, [], 0))];
      }
    }

    method OpenUdp(env: Env) returns (freed: bool, actions: seq<Action>)
      modifies this`state, this`handle, this`initialized, this`isUdp
      ensures Left(freed, View(), actions) == ProcessUdp(old(View()), env)
    {
      if !state.Reserved? { return false, []; }
      if env.address != 0 { return true, [Emitted(Event(Error, id, owner, env.address, [], 0))]; }
      if env.init != 0 { return true, [Emitted(Event(Error, id, owner, env.init, [], 0))]; }
      isUdp, initialized, handle, freed := true, true, Open, false;
      var result := if env.open != 0 then env.open else env.read;
      if result != 0 {
        actions := Reject(result);
      } else {
        state, actions := SocketState.Udp, [Entered(SocketState.Udp)];
      }
    }

    method ConnectUdp(to: Udp.SockAddr, env: Env)
      modifies this`target
      ensures Keep(View()) == ProcessUdpConnect(old(View()), to, env)
    {
      if state.Udp? && env.address == 0 { target := Some(to); }
    }

    method Start(newOwner: nat, env: Env) returns (actions: seq<Action>)
      modifies this`owner, this`reading, this`state, this`handle
      ensures Outcome(Some(View()), actions) == ProcessStart(old(View()), newOwner, env)
    {
      if state.Listening? || state.Connected? {
        owner := newOwner;
        return [Emitted(Event(Opened, id, owner, 0, [], 0))];
      }
      if !state.AcceptedPaused? && !state.ConnectedPaused? {
        return [Emitted(Event(Error, id, newOwner, UV_EINVAL, [], 0))];
      }
      owner := newOwner;
      if env.read != 0 {
        actions := Reject(env.read);
      } else {
        reading, state := true, Connected;
        actions := [Entered(Connected), Emitted(Event(Opened, id, owner, 0, [], 0))];
      }
    }

    method Pause(env: Env) returns (actions: seq<Action>)
      modifies this`reading, this`state
      ensures Outcome(Some(View()), actions) == ProcessPause(old(View()), env)
    {
      if !state.Connected? { return []; }
      if env.read != 0 { return [Emitted(Event(Error, id, owner, env.read, [], 0))]; }
      reading, state := false, ConnectedPaused;
      actions := [Entered(ConnectedPaused)];
    }

    /** One turn of the pump loop. */
    method PumpTurn(env: Env) returns (actions: seq<Action>)
      requires Valid()
      modifies this`pumpPending, this`inflight, this`queuedBytes, this`state, this`handle, high, low, high.cells, low.cells
      ensures Kept() && Outcome(Some(View()), actions) == SocketEntries.PumpTurn(old(View()), env)
    {
      pumpPending, actions := false, [];
      if !state.Closing? { actions := PumpWrite(env); }
    }

    /** read_completed with bytes, and udp_received with a datagram. */
    method Received(bytes: seq<byte>, from: Option<Udp.SockAddr>) returns (actions: seq<Action>)
      requires from.Some? ==> from.value.WellFormed()
      modifies this`readBytes
      ensures Outcome(Some(View()), actions)
              == if from.None? then ReadData(old(View()), bytes) else DatagramReceived(old(View()), bytes, from.value)
    {
      readBytes := readBytes + |bytes|;
      actions := if from.None? then [Emitted(Event(Data, id, owner, 0, bytes, |bytes|))]
                 else [Emitted(Event(Datagram, id, owner, Udp.AddressSize(from.value), Udp.Received(bytes, from.value), |bytes|))];
    }

    /** read_completed at the end of the stream. */
    method Eof() returns (actions: seq<Action>)
      modifies this`reading, this`state
      ensures Outcome(Some(View()), actions) == ReadEof(old(View()))
    {
      if state.HalfCloseRead? { return []; }
      reading, state := false, HalfCloseRead;
      actions := [Emitted(Event(EventKind.Close, id, owner, 0, [], 0)), Entered(HalfCloseRead)];
    }

    /** connect_completed. */
    method ConnectCompleted(status: int, env: Env) returns (actions: seq<Action>)
      modifies this`connectPending, this`reading, this`state, this`handle
      ensures Outcome(Some(View()), actions) == ConnectDone(old(View()), status, env)
    {
      connectPending := false;
      if state.Closing? { return []; }
      var result := if status != 0 then status else env.read;
      if result != 0 {
        actions := Reject(result);
      } else {
        reading, state := true, Connected;
        actions := [Entered(Connected), Emitted(Event(Opened, id, owner, 0, [], 0))];
      }
    }

    /** accept_connection, on the entry of the new connection. */
    method AcceptInto(env: Env) returns (freed: bool, actions: seq<Action>)
      modifies this`state, this`handle, this`initialized
      ensures Left(freed, View(), actions) == SocketEntries.AcceptInto(old(View()), env)
    {
      if env.init != 0 { return true, []; }
      initialized, handle, freed := true, Open, false;
      if env.open != 0 {
        actions := Reject(env.open);
      } else {
        state, actions := AcceptedPaused, [Entered(AcceptedPaused)];
      }
    }

    /** udp_write_completed for the i-th datagram under way. */
    method DatagramCompleted(i: nat, status: int) returns (actions: seq<Action>)
      requires i < |datagrams|
      modifies this`datagrams, this`writeBytes
      ensures Outcome(Some(View()), actions) == DatagramDone(old(View()), i, status)
    {
      var b := datagrams[i];
      actions := if status != 0 && !state.Closing? then [Emitted(Event(Error, id, owner, status, [], 0))] else [];
      datagrams, writeBytes := datagrams[..i] + datagrams[i + 1..], writeBytes + b.size;
      actions := actions + [Delivered(b), Released(b.token)];
    }

    /** Unlinks and releases the head of a queue until none is left. */
    static method ReleaseQueue(queue: Queue<Buffer>) returns (actions: seq<Action>)
      requires queue.Valid()
      modifies queue, queue.cells
      ensures queue.Valid() && queue.cells == old(queue.cells) && queue.contents == []
      ensures actions == ReleaseAll(old(queue.contents))
    {
      actions := [];
      queue.EmptyHead();
      while queue.head != null
        invariant queue.Valid() && queue.cells == old(queue.cells)
        invariant (queue.head == null) == (queue.contents == [])
        invariant actions + ReleaseAll(queue.contents) == ReleaseAll(old(queue.contents))
        decreases |queue.contents|
      {
        ReleaseNext(actions, queue.contents);
        var b := queue.Pop();
        actions := actions + [Released(b.token)];
        queue.EmptyHead();
      }
      assert actions + [] == actions;
    }

    /** close_entry: both queues are emptied from the front, and every write in them is released. */
    method CloseCallback() returns (actions: seq<Action>)
      requires Valid()
      modifies high, low, high.cells, low.cells
      ensures Kept() && Outcome(None, actions) == CloseDone(old(View()))
      ensures high.head == null && low.head == null
    {
      actions := ReleaseQueue(high);
      var rest := ReleaseQueue(low);
      high.EmptyHead();
      low.EmptyHead();
      actions := actions + rest;
    }

    /** The commands and callbacks that leave the queues of writes alone. */
    method Steer(input: Input) returns (freed: bool, actions: seq<Action>)
      requires Valid() && Enabled(View(), input) && !Writes(input)
      modifies this`owner, this`state, this`initialized, this`isUdp, this`target, this`reading, this`readBytes,
               this`closeRequested, this`handle, this`connectPending, this`datagrams, this`writeBytes
      ensures Left(freed, View(), actions) == Perform(old(View()), input)
    {
      freed, actions := false, [];
      match input
      case Listen(env) => freed, actions := Listen(env);
      case Connect(env) => freed, actions := Connect(env);
      case Bind(env) => freed, actions := Bind(env);
      case OpenUdp(env) => freed, actions := OpenUdp(env);
      case ConnectUdp(to, env) => ConnectUdp(to, env);
      case Start(newOwner, env) => actions := Start(newOwner, env);
      case Pause(env) => actions := Pause(env);
      case Nodelay =>
      case CloseIt(force, newOwner) => freed, actions := Close(force, newOwner);
      case ExitNow => freed, actions := ExitEntry();
      case GotData(bytes) => actions := Received(bytes, None);
      case GotEof => actions := Eof();
      case ReadFailed(status) => actions := Finish(Error, status);
      case GotDatagram(payload, from) => actions := Received(payload, Some(from));
      case ConnectEnded(status, env) => actions := ConnectCompleted(status, env);
      case AcceptedAs(env) => freed, actions := AcceptInto(env);
      case PeerArrived(peer) => actions := [Emitted(Event(Accept, id, owner, peer, [], 0))];
      case AcceptFailed(status) => actions := [Emitted(Event(Error, id, owner, status, [], 0))];
      case DatagramEnded(i, status) => actions := DatagramCompleted(i, status);
      case SendTo(address, b, ownership, env) =>
        var left, done := SendTo(address, b, ownership, env);
        actions := done + Destroy(b, left);
    }

    /** Every command and every callback: the object does what the entry value does, and its queues stay well linked. */
    method Step(input: Input) returns (freed: bool, actions: seq<Action>)
      requires Valid() && Enabled(View(), input)
      modifies this`owner, this`state, this`initialized, this`isUdp, this`target, this`reading, this`readBytes,
               this`closeRequested, this`pumpPending, this`handle, this`connectPending, this`inflight, this`datagrams,
               this`queuedBytes, this`warnSize, this`writeBytes, high, low, high.cells, low.cells
      ensures Kept() && Left(freed, View(), actions) == Perform(old(View()), input)
    {
      if !Writes(input) {
        freed, actions := Steer(input);
        return;
      }
      freed := false;
      match input
      case Send(priority, b, ownership, env) =>
        var left, done := Send(priority, b, ownership, env);
        actions := done + Destroy(b, left);
      case Pump(env) => actions := PumpTurn(env);
      case WriteEnded(status, env) => actions := WriteCompleted(status, env);
      case HandleGone =>
        actions := CloseCallback();
        freed := true;
    }
  }

  /** What works on the queues of writes. */
  predicate Writes(input: Input) { input.Send? || input.Pump? || input.WriteEnded? || input.HandleGone? }

  lemma {:induction false} ReleaseNext(done: seq<Action>, queue: seq<Buffer>)
    requires queue != []
    ensures done + [Released(queue[0].token)] + ReleaseAll(queue[1..]) == done + ReleaseAll(queue)
  {
  }
}
