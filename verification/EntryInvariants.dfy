/** Every operation on an entry keeps the entry invariant, whatever the environment answers. */
module EntryInvariants {
  import opened Bytes
  import opened Options
  import opened SocketEntries
  import opened EntryTraces
  import Bits
  import Udp = UdpAddresses

  /** Refused before a handle exists: the entry is discarded. */
  lemma {:induction false} DiscardKeeps(e: Entry, l: Ledger, actions: seq<Action>)
    requires EntryOk(e, l) && !e.initialized && Tally(l, actions).legal
    requires Tally(l, actions).freed == l.freed && Tally(l, actions).scheduled == l.scheduled
    ensures Good(e, l, 0, Outcome(None, actions))
  {
    NothingHeld(e, l);
  }

  lemma {:induction false} NothingHeld(e: Entry, l: Ledger)
    requires EntryOk(e, l) && !e.initialized
    ensures Holds(e.out, l.watch) == 0
    ensures !e.pumpPending && !e.closeRequested && Unused(e.out) && e.out.datagrams == []
    ensures l.books.acceptedBytes == 0 && l.handleCloses == 0 && l.closes == 0
  {
  }

  /** Refused by libuv once the handle exists: reported and closed. */
  lemma {:induction false} RejectedKeeps(e: Entry, e': Entry, l: Ledger, l': Ledger, prefix: seq<Action>, error: int)
    requires EntryOk(e, l) && !e.initialized
    requires e' == e.(initialized := true, handle := Open, state := e'.state, isUdp := e'.isUdp)
    requires l' == Tally(l, prefix) && l'.legal && l'.state == e'.state && l'.handleCloses == 0 && l'.books == l.books
    requires l'.freed == l.freed && l'.scheduled == l.scheduled && l'.watch == l.watch
    ensures var r := Reject(e', error); Good(e, l, 0, Outcome(r.entry, prefix + r.actions))
  {
    NothingHeld(e, l);
    RejectKeeps(e', l', error);
    TallyConcat(l, prefix, Reject(e', error).actions);
  }

  lemma {:induction false} ListenKeeps(e: Entry, l: Ledger, env: Env)
    requires EntryOk(e, l)
    ensures Good(e, l, 0, ProcessListen(e, env))
  {
    if e.state.Reserved? {
      var first := Entered(ListenPending);
      if env.address != 0 || env.init != 0 {
        var a := Emit(e, Error, if env.address != 0 then env.address else env.init);
        Two(l, first, a);
        One(l, first);
        One(l, a);
        DiscardKeeps(e, l, [first, a]);
      } else if env.open != 0 {
        One(l, first);
        NothingHeld(e, l);
        RejectedKeeps(e, e.(state := ListenPending, initialized := true, handle := Open), l, Observe(l, first), [first], env.open);
      } else {
        ListeningKeeps(e, l, env);
      }
    }
  }

  lemma {:induction false} ListeningKeeps(e: Entry, l: Ledger, env: Env)
    requires EntryOk(e, l) && e.state.Reserved? && env.address == 0 && env.init == 0 && env.open == 0
    ensures Good(e, l, 0, ProcessListen(e, env))
  {
    var a, b, c := Entered(ListenPending), Entered(Listening), Emit(e, Opened, env.port);
    Three(l, a, b, c);
    One(l, a);
    One(l, b);
    One(l, c);
  }

  lemma {:induction false} ConnectKeeps(e: Entry, l: Ledger, env: Env)
    requires EntryOk(e, l)
    ensures Good(e, l, 0, ProcessConnect(e, env))
  {
    if e.state.Reserved? {
      var first := Entered(Connecting);
      One(l, first);
      if env.address != 0 || env.init != 0 {
        var a := Emit(e, Error, if env.address != 0 then env.address else env.init);
        One(l, a);
        DiscardKeeps(e, l, [a]);
      } else if env.open != 0 {
        NothingHeld(e, l);
        RejectedKeeps(e, e.(initialized := true, handle := Open, state := Connecting), l, Observe(l, first), [first], env.open);
      }
    }
  }

  lemma {:induction false} BindKeeps(e: Entry, l: Ledger, env: Env)
    requires EntryOk(e, l)
    ensures Good(e, l, 0, ProcessBind(e, env))
  {
    if e.state.Reserved? {
      var result := if env.open != 0 then env.open else env.read;
      if env.init != 0 {
        var a := Emit(e, Error, env.init);
        One(l, a);
        DiscardKeeps(e, l, [a]);
      } else if result != 0 {
        NothingHeld(e, l);
        RejectedKeeps(e, e.(initialized := true, handle := Open), l, l, [], result);
        assert [] + Reject(e.(initialized := true, handle := Open), result).actions == Reject(e.(initialized := true, handle := Open), result).actions;
      } else {
        NowConnected(e, e.(initialized := true, handle := Open, reading := true, state := Connected), l);
      }
    }
  }

  /** An entry that becomes CONNECTED and says so. */
  lemma {:induction false} NowConnected(e: Entry, e': Entry, l: Ledger)
    requires EntryOk(e, l) && Edge(e.state, Connected) && !e.state.Closing?
    requires e' == e.(owner := e'.owner, initialized := true, handle := Open, reading := true, state := Connected, connectPending := false)
    ensures Good(e, l, 0, Outcome(Some(e'), [Entered(Connected), Emit(e', Opened, 0)]))
  {
    var a, b := Entered(Connected), Emit(e', Opened, 0);
    Two(l, a, b);
    One(l, a);
    One(l, b);
  }

  lemma {:induction false} UdpKeeps(e: Entry, l: Ledger, env: Env)
    requires EntryOk(e, l)
    ensures Good(e, l, 0, ProcessUdp(e, env))
  {
    if e.state.Reserved? {
      var result := if env.open != 0 then env.open else env.read;
      NothingHeld(e, l);
      if env.address != 0 || env.init != 0 {
        var a := Emit(e, Error, if env.address != 0 then env.address else env.init);
        One(l, a);
        DiscardKeeps(e, l, [a]);
      } else if result != 0 {
        RejectedKeeps(e, e.(isUdp := true, initialized := true, handle := Open), l, l, [], result);
        assert [] + Reject(e.(isUdp := true, initialized := true, handle := Open), result).actions == Reject(e.(isUdp := true, initialized := true, handle := Open), result).actions;
      } else {
        UdpOpened(e, l);
      }
    }
  }

  lemma {:induction false} UdpOpened(e: Entry, l: Ledger)
    requires EntryOk(e, l) && e.state.Reserved?
    ensures Good(e, l, 0, Outcome(Some(e.(isUdp := true, initialized := true, handle := Open, state := Udp)), [Entered(Udp)]))
  {
    NothingHeld(e, l);
    One(l, Entered(Udp));
  }

  lemma {:induction false} UdpConnectKeeps(e: Entry, l: Ledger, target: Udp.SockAddr, env: Env)
    requires EntryOk(e, l)
    ensures Good(e, l, 0, ProcessUdpConnect(e, target, env))
  {
  }

  lemma {:induction false} StartKeeps(e: Entry, l: Ledger, owner: nat, env: Env)
    requires EntryOk(e, l)
    ensures Good(e, l, 0, ProcessStart(e, owner, env))
  {
    var e1 := e.(owner := owner);
    if e.state.Listening? || e.state.Connected? {
      SayKeeps(e, e1, l, Emit(e1, Opened, 0));
    } else if !e.state.AcceptedPaused? && !e.state.ConnectedPaused? {
      SayKeeps(e, e, l, Emit(e1, Error, UV_EINVAL));
    } else if env.read != 0 {
      RejectKeeps(e1, l, env.read);
    } else {
      NowConnected(e, e1.(reading := true, state := Connected), l);
    }
  }

  /** An operation that only reports an event, and perhaps takes a new owner. */
  lemma {:induction false} SayKeeps(e: Entry, e': Entry, l: Ledger, a: Action)
    requires EntryOk(e, l) && a.Emitted? && !a.event.kind.Close? && !a.event.kind.Warning?
    requires a.event.kind.Data? ==> e.state.Connected?
    requires e' == e.(owner := e'.owner, readBytes := e'.readBytes)
    ensures Good(e, l, 0, Outcome(Some(e'), [a]))
  {
    One(l, a);
  }

  lemma {:induction false} PauseKeeps(e: Entry, l: Ledger, env: Env)
    requires EntryOk(e, l)
    ensures Good(e, l, 0, ProcessPause(e, env))
  {
    if e.state.Connected? {
      if env.read != 0 {
        SayKeeps(e, e, l, Emit(e, Error, env.read));
      } else {
        PausedKeeps(e, l);
      }
    }
  }

  lemma {:induction false} PausedKeeps(e: Entry, l: Ledger)
    requires EntryOk(e, l) && e.state.Connected?
    ensures Good(e, l, 0, Outcome(Some(e.(reading := false, state := ConnectedPaused)), [Entered(ConnectedPaused)]))
  {
    One(l, Entered(ConnectedPaused));
  }

  lemma {:induction false} RefuseKeeps(e: Entry, l: Ledger, b: Buffer, owner: nat, error: int)
    requires EntryOk(e, l)
    ensures Good(e, l, OneIf(b.token == l.watch), Dispose(Decline(e, Owned, owner, error), b))
  {
    var a := Emitted(Event(Error, e.id, owner, error, [], 0));
    Two(l, a, Released(b.token));
    assert [a] + [Released(b.token)] == [a, Released(b.token)];
  }

  lemma {:induction false} UdpSendKeeps(e: Entry, l: Ledger, address: seq<byte>, b: Buffer, env: Env)
    requires EntryOk(e, l)
    ensures Good(e, l, OneIf(b.token == l.watch), ProcessUdpSend(e, address, b, Owned, env))
  {
    if !e.state.Udp? {
      RefuseKeeps(e, l, b, 0, UV_ENOTCONN);
    } else if address != [] && Udp.Decode(address).None? {
      RefuseKeeps(e, l, b, e.owner, UV_EINVAL);
    } else if address == [] && e.target.None? {
      RefuseKeeps(e, l, b, e.owner, UV_EDESTADDRREQ);
    } else if !env.memory {
      RefuseKeeps(e, l, b, e.owner, UV_ENOMEM);
    } else if env.write != 0 {
      RefuseKeeps(e, l, b, e.owner, env.write);
    } else {
      DatagramQueued(e, l, b);
    }
  }

  lemma {:induction false} DatagramQueued(e: Entry, l: Ledger, b: Buffer)
    requires EntryOk(e, l) && e.state.Udp?
    ensures Good(e, l, OneIf(b.token == l.watch), Dispose(Handled(e.(out := e.out.(datagrams := e.out.datagrams + [b])), [], Borrowed), b))
  {
    AppendCopies(e.out.datagrams, b, l.watch);
  }

  // ---------- sending ----------

  lemma {:induction false} EnqueueHighBalances(w: Writer, k: Books, b: Buffer)
    requires Balanced(w, k) && b.size > 0
    ensures Balanced(Enqueue(w, High, b), Enter(k, Accepted(High, b)))
  {
    AppendSum(w.high, b);
  }

  lemma {:induction false} EnqueueLowBalances(w: Writer, k: Books, b: Buffer)
    requires Balanced(w, k) && b.size > 0
    ensures Balanced(Enqueue(w, Low, b), Enter(k, Accepted(Low, b)))
  {
    AppendSum(w.low, b);
  }

  lemma {:induction false} EnqueueBalances(w: Writer, k: Books, p: Priority, b: Buffer)
    requires Balanced(w, k) && b.size > 0
    ensures Balanced(Enqueue(w, p, b), Enter(k, Accepted(p, b)))
  {
    if p.High? { EnqueueHighBalances(w, k, b); } else { EnqueueLowBalances(w, k, b); }
  }

  lemma {:induction false} EnqueueHolds(w: Writer, p: Priority, b: Buffer, t: nat)
    ensures Holds(Enqueue(w, p, b), t) == Holds(w, t) + OneIf(b.token == t)
  {
    AppendCopies(w.high, b, t);
    AppendCopies(w.low, b, t);
  }

  lemma {:induction false} WarnKeeps(e: Entry, l: Ledger)
    requires Core(e, l) && Sendable(e.state) && e.out.queuedBytes > 0
    ensures var p := Warn(e);
            var l' := Tally(l, p.actions);
            && Core(p.entry, l') && Calm(p.entry) && l'.freed == l.freed && l'.scheduled == l.scheduled && l'.watch == l.watch
            && p.entry == e.(out := e.out.(warnSize := p.entry.out.warnSize))
  {
    if WarningDue(e.out) {
      One(l, Emit(e, Warning, WarningValue(e.out.queuedBytes)));
      WarningCounts(l.books.warnings, e.out.queuedBytes);
    }
  }

  /** Enough queued bytes make a warning that is not the zero one. */
  lemma {:induction false} WarningCounts(n: nat, queued: int)
    requires queued >= 0x10_0000 * Bits.Pow2(n)
    ensures WarningValue(queued) > 0
  {
  }

  lemma {:induction false} ScheduleKeeps(e: Entry, l: Ledger)
    requires Core(e, l) && Calm(e) && Sendable(e.state)
    ensures var p := Schedule(e);
            var l' := Tally(l, p.actions);
            && EntryOk(p.entry, l') && l'.freed == l.freed && p.entry == e.(pumpPending := p.entry.pumpPending)
            && PumpKept(e, Some(p.entry), l'.scheduled - l.scheduled)
  {
    One(l, Scheduled);
  }

  lemma {:induction false} AcceptKeeps(e: Entry, l: Ledger, p: Priority, b: Buffer)
    requires EntryOk(e, l) && Sendable(e.state) && b.size > 0
    ensures Core(e.(out := Enqueue(e.out, p, b)), Observe(l, Accepted(p, b)))
    ensures Enqueue(e.out, p, b).queuedBytes > 0
  {
    EnqueueBalances(e.out, l.books, p, b);
  }

  lemma {:induction false} SendAccepted(e: Entry, l: Ledger, p: Priority, b: Buffer, env: Env)
    requires EntryOk(e, l) && b.size > 0 && Sendable(e.state) && !e.closeRequested && env.memory
    ensures Sent(e, l, OneIf(b.token == l.watch), ProcessSend(e, p, b, Owned, env))
  {
    var a := Accepted(p, b);
    var e1 := e.(out := Enqueue(e.out, p, b));
    var w := Warn(e1);
    var s := Schedule(w.entry);
    EnqueueHolds(e.out, p, b, l.watch);
    AcceptKeeps(e, l, p, b);
    One(l, a);
    WarnKeeps(e1, Observe(l, a));
    ScheduleKeeps(w.entry, Tally(Observe(l, a), w.actions));
    TallyConcat(l, [a], w.actions);
    TallyConcat(l, [a] + w.actions, s.actions);
    assert [a] + w.actions + s.actions + [] == [a] + w.actions + s.actions;
  }

  lemma {:induction false} SendKeeps(e: Entry, l: Ledger, p: Priority, b: Buffer, env: Env)
    requires EntryOk(e, l) && b.size > 0
    ensures Sent(e, l, OneIf(b.token == l.watch), ProcessSend(e, p, b, Owned, env))
  {
    if e.state.Udp? {
      UdpSendKeeps(e, l, [], b, env);
    } else if !Sendable(e.state) {
      RefuseKeeps(e, l, b, 0, UV_ENOTCONN);
    } else if e.closeRequested {
      RefuseKeeps(e, l, b, 0, UV_ECANCELED);
    } else if !env.memory {
      RefuseKeeps(e, l, b, e.owner, UV_ENOMEM);
    } else {
      SendAccepted(e, l, p, b, env);
    }
  }

  // ---------- closing ----------

  lemma {:induction false} CloseAfterWritesKeeps(e: Entry, l: Ledger)
    requires Core(e, l) && Calm(e) && e.closeRequested
    ensures var p := CloseAfterWrites(e); EntryOk(p.entry, Tally(l, p.actions)) && Quiet(e, l, p)
  {
    ShutKeeps(e, l);
  }

  /** The CLOSE event of an entry that has not reported one. */
  function Report(e: Entry): (actions: seq<Action>) {
    if e.state.HalfCloseRead? then [] else [Emit(e, Close, 0)]
  }

  lemma {:induction false} CloseKeeps(e: Entry, l: Ledger, force: bool, owner: nat)
    requires EntryOk(e, l)
    ensures Good(e, l, 0, ProcessClose(e, force, owner))
  {
    if !e.state.Closing? { LiveCloseKeeps(e, e.(owner := owner), l, force); }
  }

  lemma {:induction false} LiveCloseKeeps(e: Entry, e1: Entry, l: Ledger, force: bool)
    requires EntryOk(e, l) && !e.state.Closing? && e1 == e.(owner := e1.owner)
    ensures Good(e, l, 0, ProcessClose(e, force, e1.owner))
  {
    var o := ProcessClose(e, force, e1.owner);
    NewOwner(e, e1, l);
    if !e.initialized {
      One(l, Emit(e1, Close, 0));
      DiscardKeeps(e1, l, Report(e1));
    } else if !force && !e.isUdp && e.out.queuedBytes > 0 {
      DeferredCloseKeeps(e1, l);
    } else {
      ForcedCloseKeeps(e1, l);
    }
    SameForOwner(e, e1, l, 0, o);
  }

  lemma {:induction false} NewOwner(e: Entry, e1: Entry, l: Ledger)
    requires EntryOk(e, l) && e1 == e.(owner := e1.owner)
    ensures EntryOk(e1, l)
  {
  }

  lemma {:induction false} SameForOwner(e: Entry, e1: Entry, l: Ledger, incoming: nat, o: Outcome)
    requires e1 == e.(owner := e1.owner) && Good(e1, l, incoming, o)
    ensures Good(e, l, incoming, o)
  {
  }

  lemma {:induction false} DeferredCloseKeeps(e: Entry, l: Ledger)
    requires EntryOk(e, l) && !e.state.Closing? && !e.isUdp && e.out.queuedBytes > 0
    ensures var p := CloseAfterWrites(e.(reading := false, closeRequested := true));
            Good(e, l, 0, Outcome(Some(p.entry), Report(e) + p.actions))
  {
    var e2 := e.(reading := false, closeRequested := true);
    One(l, Emit(e, Close, 0));
    QueuedIsSendable(e, l);
    CloseAfterWritesKeeps(e2, Tally(l, Report(e)));
    TallyConcat(l, Report(e), CloseAfterWrites(e2).actions);
  }

  lemma {:induction false} QueuedIsSendable(e: Entry, l: Ledger)
    requires Core(e, l) && e.out.queuedBytes > 0
    ensures Sendable(e.state) || e.state.Closing?
  {
    assert Unused(e.out) ==> Sum(e.out.high) == 0 && Sum(e.out.low) == 0;
  }

  /** The CLOSE event precedes the closing of the handle, so the ledger is ahead of the entry for a moment. */
  lemma {:induction false} ForcedCloseKeeps(e: Entry, l: Ledger)
    requires EntryOk(e, l) && !e.state.Closing? && e.initialized
    ensures var p := ShutHandle(e); Good(e, l, 0, Outcome(Some(p.entry), Report(e) + p.actions))
  {
    var p := ShutHandle(e);
    if e.state.HalfCloseRead? {
      assert Report(e) + p.actions == p.actions;
      ShutKeeps(e, l);
    } else {
      var a := Emit(e, Close, 0);
      Three(l, a, Entered(Closing), HandleClosed);
      One(l, a);
      One(l, Entered(Closing));
      One(l, HandleClosed);
      assert Report(e) + p.actions == [a, Entered(Closing), HandleClosed];
    }
  }

  lemma {:induction false} ExitKeeps(e: Entry, l: Ledger)
    requires EntryOk(e, l)
    ensures Good(e, l, 0, ProcessExit(e))
  {
    if e.initialized && !e.handle.Shut? { ShutKeeps(e, l); }
  }

  lemma {:induction false} ReleaseAllFrees(l: Ledger, buffers: seq<Buffer>)
    ensures Tally(l, ReleaseAll(buffers)) == l.(freed := l.freed + Copies(buffers, l.watch))
    decreases |buffers|
  {
    if buffers != [] {
      var a := Released(buffers[0].token);
      var l1 := Observe(l, a);
      assert l1 == l.(freed := l1.freed);
      ReleaseAllFrees(l1, buffers[1..]);
      assert ReleaseAll(buffers)[1..] == ReleaseAll(buffers[1..]);
    }
  }

  /** libuv runs the close callback when no request of the handle is left. */
  lemma {:induction false} CloseDoneKeeps(e: Entry, l: Ledger)
    requires EntryOk(e, l) && e.out.inflight.None? && e.out.datagrams == [] && !e.pumpPending
    ensures Good(e, l, 0, CloseDone(e))
  {
    ReleaseAllFrees(l, e.out.high);
    ReleaseAllFrees(Tally(l, ReleaseAll(e.out.high)), e.out.low);
    TallyConcat(l, ReleaseAll(e.out.high), ReleaseAll(e.out.low));
  }

  // ---------- writing ----------

  /** What pump_write leaves behind: everything but the pump flag is settled. */
  ghost predicate Pumped(e: Entry, l: Ledger, p: Part) {
    var l' := Tally(l, p.actions);
    && Core(p.entry, l') && Calm(p.entry)
    && (!p.entry.state.Closing? && (p.entry.out.high != [] || p.entry.out.low != []) ==> p.entry.out.inflight.Some?)
    && Conserves(e, l, p)
  }

  /** Buffers are accounted for and the pump list is left alone. */
  ghost predicate Conserves(e: Entry, l: Ledger, p: Part) {
    var l' := Tally(l, p.actions);
    && Holds(p.entry.out, l.watch) + l'.freed == Holds(e.out, l.watch) + l.freed
    && l'.scheduled == l.scheduled && p.entry.pumpPending == e.pumpPending && p.entry.id == e.id && l'.watch == l.watch
  }

  lemma {:induction false} TakeHigh(w: Writer, k: Books)
    requires Balanced(w, k) && w.high != [] && w.inflight.None?
    ensures TryAllowed(k, High, w.high[0])
    ensures Balanced(w.(high := w.high[1..], inflight := Some(w.high[0])), Enter(k, Tried(High, w.high[0], true)))
    ensures Balanced(w.(high := w.high[1..], queuedBytes := w.queuedBytes - w.high[0].size), Enter(k, Tried(High, w.high[0], false)))
  {
  }

  lemma {:induction false} TakeLow(w: Writer, k: Books)
    requires Balanced(w, k) && w.high == [] && w.low != [] && w.inflight.None?
    ensures TryAllowed(k, Low, w.low[0])
    ensures Balanced(w.(low := w.low[1..], inflight := Some(w.low[0])), Enter(k, Tried(Low, w.low[0], true)))
    ensures Balanced(w.(low := w.low[1..], queuedBytes := w.queuedBytes - w.low[0].size), Enter(k, Tried(Low, w.low[0], false)))
  {
  }

  /** uv_write took the write. */
  lemma {:induction false} TakenKeeps(e: Entry, w: Writer, l: Ledger, p: Priority, b: Buffer)
    requires Core(e, l) && Calm(e) && Sendable(e.state) && !e.pumpPending
    requires TryAllowed(l.books, p, b) && Balanced(w, Enter(l.books, Tried(p, b, true)))
    requires w.inflight == Some(b) && w.datagrams == e.out.datagrams && w.warnSize == e.out.warnSize
    requires Holds(w, l.watch) == Holds(e.out, l.watch)
    ensures Pumped(e, l, Part(e.(out := w), [Tried(p, b, true)]))
  {
    One(l, Tried(p, b, true));
  }

  /** uv_write refused it: the buffer is released and the entry closed. */
  lemma {:induction false} RefusedKeeps(e: Entry, w: Writer, l: Ledger, p: Priority, b: Buffer, f: Part, result: int)
    requires Core(e, l) && Sendable(e.state) && !e.pumpPending
    requires TryAllowed(l.books, p, b) && Balanced(w, Enter(l.books, Tried(p, b, false)))
    requires w.inflight.None? && w.datagrams == e.out.datagrams && Holds(w, l.watch) + OneIf(b.token == l.watch) == Holds(e.out, l.watch)
    requires f == if e.state.HalfCloseRead? then ShutHandle(e.(out := w)) else Finish(e.(out := w), Error, result)
    ensures Pumped(e, l, Part(f.entry, [Tried(p, b, false), Released(b.token)] + f.actions))
  {
    var head := [Tried(p, b, false), Released(b.token)];
    var l1 := Observe(Observe(l, Tried(p, b, false)), Released(b.token));
    Two(l, Tried(p, b, false), Released(b.token));
    One(l, Tried(p, b, false));
    One(l, Released(b.token));
    TallyConcat(l, head, f.actions);
    DropThenShut(e.(out := w), l1, result);
  }

  /** Between the refused write and the close the ledger already counts dropped bytes. */
  lemma {:induction false} DropThenShut(e: Entry, l: Ledger, result: int)
    requires l.legal && l.state == e.state && Sendable(e.state) && e.initialized && l.handleCloses == 0 && !e.pumpPending
    requires !e.isUdp && e.out.datagrams == [] && l.books.deliveredBytes == 0
    requires Balanced(e.out, l.books) && (e.closeRequested ==> l.closes > 0)
    ensures var f := if e.state.HalfCloseRead? then ShutHandle(e) else Finish(e, Error, result);
            EntryOk(f.entry, Tally(l, f.actions)) && Quiet(e, l, f) && f.entry.state.Closing?
  {
    if e.state.HalfCloseRead? {
      Two(l, Entered(Closing), HandleClosed);
    } else {
      RejectKeeps(e, l, result);
    }
  }

  lemma {:induction false} PumpWriteKeeps(e: Entry, l: Ledger, env: Env)
    requires Core(e, l) && Calm(e) && Sendable(e.state) && !e.pumpPending
    ensures Pumped(e, l, PumpWrite(e, env))
  {
    if e.out.inflight.None? {
      if e.out.high != [] {
        PumpHighKeeps(e, l, env);
      } else if e.out.low != [] {
        PumpLowKeeps(e, l, env);
      }
    }
  }

  lemma {:induction false} PumpHighKeeps(e: Entry, l: Ledger, env: Env)
    requires Core(e, l) && Calm(e) && Sendable(e.state) && !e.pumpPending && e.out.inflight.None? && e.out.high != []
    ensures Pumped(e, l, PumpWrite(e, env))
  {
    var b := e.out.high[0];
    TakeHigh(e.out, l.books);
    if env.write == 0 {
      var w := e.out.(high := e.out.high[1..], inflight := Some(b));
      assert PumpWrite(e, env) == Part(e.(out := w), [Tried(High, b, true)]);
      TakenKeeps(e, w, l, High, b);
    } else {
      PumpHighRefused(e, l, b, env);
    }
  }

  lemma {:induction false} PumpHighRefused(e: Entry, l: Ledger, b: Buffer, env: Env)
    requires Core(e, l) && Calm(e) && Sendable(e.state) && !e.pumpPending && e.out.inflight.None? && e.out.high != []
    requires b == e.out.high[0] && env.write != 0
    ensures Pumped(e, l, PumpWrite(e, env))
  {
    var w := e.out.(high := e.out.high[1..], queuedBytes := e.out.queuedBytes - b.size);
    var e1 := e.(out := w);
    var f := if e.state.HalfCloseRead? then ShutHandle(e1) else Finish(e1, Error, env.write);
    assert PumpWrite(e, env) == Part(f.entry, [Tried(High, b, false), Released(b.token)] + f.actions);
    TakeHigh(e.out, l.books);
    RefusedKeeps(e, w, l, High, b, f, env.write);
  }

  lemma {:induction false} PumpLowKeeps(e: Entry, l: Ledger, env: Env)
    requires Core(e, l) && Calm(e) && Sendable(e.state) && !e.pumpPending && e.out.inflight.None? && e.out.high == [] && e.out.low != []
    ensures Pumped(e, l, PumpWrite(e, env))
  {
    var b := e.out.low[0];
    TakeLow(e.out, l.books);
    if env.write == 0 {
      var w := e.out.(low := e.out.low[1..], inflight := Some(b));
      assert PumpWrite(e, env) == Part(e.(out := w), [Tried(Low, b, true)]);
      TakenKeeps(e, w, l, Low, b);
    } else {
      PumpLowRefused(e, l, b, env);
    }
  }

  lemma {:induction false} PumpLowRefused(e: Entry, l: Ledger, b: Buffer, env: Env)
    requires Core(e, l) && Calm(e) && Sendable(e.state) && !e.pumpPending && e.out.inflight.None? && e.out.high == [] && e.out.low != []
    requires b == e.out.low[0] && env.write != 0
    ensures Pumped(e, l, PumpWrite(e, env))
  {
    var w := e.out.(low := e.out.low[1..], queuedBytes := e.out.queuedBytes - b.size);
    var e1 := e.(out := w);
    var f := if e.state.HalfCloseRead? then ShutHandle(e1) else Finish(e1, Error, env.write);
    assert PumpWrite(e, env) == Part(f.entry, [Tried(Low, b, false), Released(b.token)] + f.actions);
    TakeLow(e.out, l.books);
    RefusedKeeps(e, w, l, Low, b, f, env.write);
  }

  /** One turn of the pump loop clears the flag and leaves no write stranded. */
  lemma {:induction false} PumpTurnKeeps(e: Entry, l: Ledger, env: Env)
    requires EntryOk(e, l) && e.pumpPending
    ensures var o := PumpTurn(e, env); o.entry.Some? && Turned(e, l, Part(o.entry.value, o.actions))
  {
    var e1 := e.(pumpPending := false);
    if !e.state.Closing? {
      assert Core(e1, l) && Calm(e1);
      PumpWriteKeeps(e1, l, env);
    }
  }

  ghost predicate Turned(e: Entry, l: Ledger, p: Part) {
    EntryOk(p.entry, Tally(l, p.actions)) && !p.entry.pumpPending && Conserves(e.(pumpPending := false), l, p)
  }

  lemma {:induction false} WriteFailureKeeps(e: Entry, l: Ledger, status: int)
    requires EntryOk(e, l) && e.out.inflight.Some?
    ensures var p := WriteFailure(e, status);
            && EntryOk(p.entry, Tally(l, p.actions)) && Conserves(e, l, p) && p.entry.out == e.out
            && (Sendable(p.entry.state) || p.entry.state.Closing?)
  {
    if status != 0 && !e.state.Closing? {
      if e.state.HalfCloseRead? { ShutKeeps(e, l); } else { FinishKeeps(e, l, status); }
    }
  }

  lemma {:induction false} AccountKeeps(e: Entry, l: Ledger, b: Buffer)
    requires Core(e, l) && e.out.inflight == Some(b)
    ensures var p := Part(e.(out := Account(e.out, b)), [Completed(b), Released(b.token)]);
            Core(p.entry, Tally(l, p.actions)) && Conserves(e, l, p)
  {
    Two(l, Completed(b), Released(b.token));
  }

  lemma {:induction false} RecoverKeeps(e: Entry, l: Ledger)
    requires Core(e, l)
    ensures var p := Recover(e); Core(p.entry, Tally(l, p.actions)) && Calm(p.entry) && Conserves(e, l, p)
    ensures Recover(e).entry.state == e.state
  {
    if e.out.queuedBytes == 0 && e.out.warnSize > 0 && !e.state.Closing? { One(l, Emit(e, Warning, 0)); }
  }

  lemma {:induction false} AfterWriteKeeps(e: Entry, l: Ledger, env: Env)
    requires Core(e, l) && Calm(e) && (Sendable(e.state) || e.state.Closing?) && !e.pumpPending
    ensures var p := AfterWrite(e, env); EntryOk(p.entry, Tally(l, p.actions)) && Conserves(e, l, p)
  {
    if e.closeRequested {
      CloseAfterWritesKeeps(e, l);
    } else if !e.state.Closing? {
      PumpWriteKeeps(e, l, env);
    }
  }

  /** Parts of an operation in a row. */
  lemma {:induction false} InARow(e: Entry, l: Ledger, p: Part, q: Part)
    requires Conserves(e, l, p) && Conserves(p.entry, Tally(l, p.actions), q)
    ensures Conserves(e, l, Part(q.entry, p.actions + q.actions))
    ensures Tally(l, p.actions + q.actions) == Tally(Tally(l, p.actions), q.actions)
  {
    TallyConcat(l, p.actions, q.actions);
  }

  lemma {:induction false} WriteDoneKeeps(e: Entry, l: Ledger, status: int, env: Env)
    requires EntryOk(e, l) && e.out.inflight.Some?
    ensures Good(e, l, 0, WriteDone(e, status, env))
  {
    var b := e.out.inflight.value;
    var f := WriteFailure(e, status);
    WriteFailureKeeps(e, l, status);
    var l1 := Tally(l, f.actions);
    var a := Part(f.entry.(out := Account(f.entry.out, b)), [Completed(b), Released(b.token)]);
    AccountKeeps(f.entry, l1, b);
    InARow(e, l, f, a);
    var fa := Part(a.entry, f.actions + a.actions);
    WriteDoneTail(e, l, fa, env);
  }

  /** From the accounted write on. */
  lemma {:induction false} WriteDoneTail(e: Entry, l: Ledger, p: Part, env: Env)
    requires Conserves(e, l, p) && Core(p.entry, Tally(l, p.actions)) && (Sendable(p.entry.state) || p.entry.state.Closing?)
    requires !p.entry.pumpPending
    ensures var r := Recover(p.entry);
            var n := AfterWrite(r.entry, env);
            Good(e, l, 0, Outcome(Some(n.entry), p.actions + r.actions + n.actions))
  {
    var l2 := Tally(l, p.actions);
    var r := Recover(p.entry);
    RecoverKeeps(p.entry, l2);
    InARow(e, l, p, r);
    var n := AfterWrite(r.entry, env);
    AfterWriteKeeps(r.entry, Tally(l2, r.actions), env);
    InARow(e, l, Part(r.entry, p.actions + r.actions), n);
  }

  lemma {:induction false} DeliveredKeeps(e: Entry, l: Ledger, i: nat, w: Writer)
    requires EntryOk(e, l) && i < |e.out.datagrams|
    requires w == e.out.(datagrams := e.out.datagrams[..i] + e.out.datagrams[i + 1..], writeBytes := e.out.writeBytes + e.out.datagrams[i].size)
    ensures var b := e.out.datagrams[i];
            Good(e, l, 0, Outcome(Some(e.(out := w)), [Delivered(b), Released(b.token)]))
  {
    var b := e.out.datagrams[i];
    RemoveCopies(e.out.datagrams, i, l.watch);
    Two(l, Delivered(b), Released(b.token));
    One(l, Delivered(b));
    One(l, Released(b.token));
  }

  lemma {:induction false} DatagramDoneKeeps(e: Entry, l: Ledger, i: nat, status: int)
    requires EntryOk(e, l) && i < |e.out.datagrams|
    ensures Good(e, l, 0, DatagramDone(e, i, status))
  {
    var b := e.out.datagrams[i];
    var w := e.out.(datagrams := e.out.datagrams[..i] + e.out.datagrams[i + 1..], writeBytes := e.out.writeBytes + b.size);
    var mid := [Delivered(b), Released(b.token)];
    DeliveredKeeps(e, l, i, w);
    var report := if status != 0 && !e.state.Closing? then [Emit(e, Error, status)] else [];
    assert DatagramDone(e, i, status) == Outcome(Some(e.(out := w)), report + mid);
    One(l, Emit(e, Error, status));
    assert Tally(l, report) == l;
    TallyConcat(l, report, mid);
  }

  // ---------- reading and connecting ----------

  /** libuv reports data only while reading is on. */
  lemma {:induction false} ReadDataKeeps(e: Entry, l: Ledger, bytes: seq<byte>)
    requires EntryOk(e, l) && e.reading && e.handle.Open?
    ensures Good(e, l, 0, ReadData(e, bytes))
  {
    var e' := e.(readBytes := e.readBytes + |bytes|);
    var a := Emitted(Event(Data, e.id, e.owner, 0, bytes, |bytes|));
    assert ReadData(e, bytes) == Outcome(Some(e'), [a]);
    SayKeeps(e, e', l, a);
  }

  lemma {:induction false} ReadEofKeeps(e: Entry, l: Ledger)
    requires EntryOk(e, l) && e.reading && e.handle.Open?
    ensures Good(e, l, 0, ReadEof(e))
  {
    var a, b := Emit(e, Close, 0), Entered(HalfCloseRead);
    Two(l, a, b);
    One(l, a);
    One(l, b);
  }

  lemma {:induction false} ReadErrorKeeps(e: Entry, l: Ledger, status: int)
    requires EntryOk(e, l) && e.initialized
    ensures Good(e, l, 0, ReadError(e, status))
  {
    FinishKeeps(e, l, status);
  }

  lemma {:induction false} DatagramReceivedKeeps(e: Entry, l: Ledger, payload: seq<byte>, from: Udp.SockAddr)
    requires EntryOk(e, l) && from.WellFormed()
    ensures Good(e, l, 0, DatagramReceived(e, payload, from))
  {
    var e' := e.(readBytes := e.readBytes + |payload|);
    var a := Emitted(Event(Datagram, e.id, e.owner, Udp.AddressSize(from), Udp.Received(payload, from), |payload|));
    assert DatagramReceived(e, payload, from) == Outcome(Some(e'), [a]);
    SayKeeps(e, e', l, a);
  }

  lemma {:induction false} ConnectDoneKeeps(e: Entry, l: Ledger, status: int, env: Env)
    requires EntryOk(e, l) && e.connectPending
    ensures Good(e, l, 0, ConnectDone(e, status, env))
  {
    if !e.state.Closing? {
      var e1 := e.(connectPending := false);
      if status != 0 || env.read != 0 {
        RejectKeeps(e1, l, if status != 0 then status else env.read);
      } else {
        NowConnected(e, e1.(reading := true, state := Connected), l);
      }
    }
  }

  lemma {:induction false} AcceptIntoKeeps(e: Entry, l: Ledger, env: Env)
    requires EntryOk(e, l) && e.state.Reserved?
    ensures Good(e, l, 0, AcceptInto(e, env))
  {
    NothingHeld(e, l);
    if env.init != 0 {
      DiscardKeeps(e, l, []);
    } else if env.open != 0 {
      var e1 := e.(initialized := true, handle := Open);
      RejectedKeeps(e, e1, l, l, [], env.open);
      assert [] + Reject(e1, env.open).actions == Reject(e1, env.open).actions;
    } else {
      One(l, Entered(AcceptedPaused));
    }
  }

  // ---------- all inputs ----------

  /** The token an input brings along, counted against the watched one. */
  function Brings(input: Input, t: nat): (n: nat) {
    if input.Send? || input.SendTo? then OneIf(input.buffer.token == t) else 0
  }

  /** The commands and callbacks that open, start or pause a socket. */
  predicate Commands(input: Input) {
    input.Listen? || input.Connect? || input.Bind? || input.OpenUdp? || input.ConnectUdp? || input.Start? || input.Pause?
    || input.AcceptedAs?
  }

  lemma {:induction false} CommandKeeps(e: Entry, l: Ledger, input: Input)
    requires EntryOk(e, l) && Enabled(e, input) && Commands(input)
    ensures Good(e, l, 0, Perform(e, input))
  {
    match input
    case Listen(env) => ListenKeeps(e, l, env);
    case Connect(env) => ConnectKeeps(e, l, env);
    case Bind(env) => BindKeeps(e, l, env);
    case OpenUdp(env) => UdpKeeps(e, l, env);
    case ConnectUdp(target, env) => UdpConnectKeeps(e, l, target, env);
    case Start(owner, env) => StartKeeps(e, l, owner, env);
    case Pause(env) => PauseKeeps(e, l, env);
    case AcceptedAs(env) => AcceptIntoKeeps(e, l, env);
  }

  /** Whatever happens to an entry, its invariant is kept. */
  lemma {:induction false} PerformKeeps(e: Entry, l: Ledger, input: Input)
    requires EntryOk(e, l) && Enabled(e, input) && !input.Pump?
    ensures Sent(e, l, Brings(input, l.watch), Perform(e, input))
    ensures !input.Send? ==> Tally(l, Perform(e, input).actions).scheduled == l.scheduled
  {
    if Commands(input) {
      CommandKeeps(e, l, input);
      return;
    }
    match input
    case Nodelay => UnchangedKeeps(e, l);
    case Send(p, b, _, env) => SendKeeps(e, l, p, b, env);
    case SendTo(address, b, _, env) => UdpSendKeeps(e, l, address, b, env);
    case CloseIt(force, owner) => CloseKeeps(e, l, force, owner);
    case ExitNow => ExitKeeps(e, l);
    case GotData(bytes) => ReadDataKeeps(e, l, bytes);
    case GotEof => ReadEofKeeps(e, l);
    case ReadFailed(status) => ReadErrorKeeps(e, l, status);
    case GotDatagram(payload, from) => DatagramReceivedKeeps(e, l, payload, from);
    case ConnectEnded(status, env) => ConnectDoneKeeps(e, l, status, env);
    case PeerArrived(id) => SayKeeps(e, e, l, Emit(e, Accept, id));
    case AcceptFailed(status) => SayKeeps(e, e, l, Emit(e, Error, status));
    case WriteEnded(status, env) => WriteDoneKeeps(e, l, status, env);
    case DatagramEnded(i, status) => DatagramDoneKeeps(e, l, i, status);
    case HandleGone => CloseDoneKeeps(e, l);
  }

  lemma {:induction false} UnchangedKeeps(e: Entry, l: Ledger)
    requires EntryOk(e, l)
    ensures Good(e, l, 0, Keep(e))
  {
  }
}
