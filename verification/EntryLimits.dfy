/** Three promises about closing a socket, and exactly when the code keeps them:
    a handle is closed once, CLOSE is reported once, and CLOSE drains the accepted writes. */
module EntryLimits {
  import opened Bytes
  import opened Options
  import opened SocketEntries
  import opened EntryTraces
  import opened EntryInvariants
  import Udp = UdpAddresses

  // ---------- lives ----------

  /** A sequence of inputs the environment can deliver to an entry. Nothing follows the freeing of it. */
  ghost predicate Runs(e: Entry, inputs: seq<Input>)
    decreases |inputs|
  {
    inputs == [] ||
    (Enabled(e, inputs[0]) &&
     match Perform(e, inputs[0]).entry
     case None => |inputs| == 1
     case Some(e') => Runs(e', inputs[1..]))
  }

  /** Everything done along a run. */
  function TraceOf(e: Entry, inputs: seq<Input>): (h: seq<Action>)
    requires Runs(e, inputs)
    decreases |inputs|
  {
    if inputs == [] then []
    else
      var o := Perform(e, inputs[0]);
      o.actions + match o.entry case None => [] case Some(e') => TraceOf(e', inputs[1..])
  }

  /** The entry met after a run that has not freed it. */
  function EntryAfter(e: Entry, inputs: seq<Input>): (r: Option<Entry>)
    requires Runs(e, inputs)
    decreases |inputs|
  {
    if inputs == [] then Some(e)
    else match Perform(e, inputs[0]).entry case None => None case Some(e') => EntryAfter(e', inputs[1..])
  }

  lemma {:induction false} StepKeeps(e: Entry, l: Ledger, input: Input)
    requires EntryOk(e, l) && Enabled(e, input)
    ensures var o := Perform(e, input); o.entry.Some? ==> EntryOk(o.entry.value, Tally(l, o.actions))
  {
    if input.Pump? { PumpTurnKeeps(e, l, input.env); } else { PerformKeeps(e, l, input); }
  }

  // ---------- CLOSE is reported once ----------

  predicate IsClose(a: Action) { a.Emitted? && a.event.kind.Close? }

  ghost predicate Silent(h: seq<Action>) { forall i :: 0 <= i < |h| ==> !IsClose(h[i]) }

  lemma {:induction false} SilentTally(l: Ledger, h: seq<Action>)
    requires Silent(h)
    ensures Tally(l, h).closes == l.closes
    decreases |h|
  {
    if h != [] {
      assert !IsClose(h[0]);
      SilentTally(Observe(l, h[0]), h[1..]);
    }
  }

  /** The inputs that report CLOSE. */
  predicate Reports(e: Entry, input: Input) {
    !e.state.HalfCloseRead? && ((input.CloseIt? && !e.state.Closing?) || input.GotEof?)
  }

  lemma {:induction false} PumpSilent(e: Entry, env: Env)
    ensures Silent(PumpWrite(e, env).actions)
  {
  }

  lemma {:induction false} ReleaseSilent(buffers: seq<Buffer>)
    ensures Silent(ReleaseAll(buffers)) && NoShut(ReleaseAll(buffers))
    decreases |buffers|
  {
    if buffers != [] { ReleaseSilent(buffers[1..]); }
  }

  predicate Opens(input: Input) {
    input.Listen? || input.Connect? || input.Bind? || input.OpenUdp? || input.ConnectUdp? || input.AcceptedAs?
  }

  predicate Steers(input: Input) {
    input.Start? || input.Pause? || input.Nodelay? || input.Send? || input.SendTo? || input.ExitNow? || input.ConnectEnded?
  }

  lemma {:induction false} OpensSilent(e: Entry, input: Input)
    requires Enabled(e, input) && Opens(input)
    ensures Silent(Perform(e, input).actions)
  {
    if input.Listen? || input.Connect? { DialsSilent(e, input); }
  }

  lemma {:induction false} DialsSilent(e: Entry, input: Input)
    requires input.Listen? || input.Connect?
    ensures Silent(Perform(e, input).actions)
  {
  }

  lemma {:induction false} SteersSilent(e: Entry, input: Input)
    requires Enabled(e, input) && Steers(input)
    ensures Silent(Perform(e, input).actions)
  {
    if input.Send? || input.SendTo? { SendQuiet(e, input); }
  }

  /** Neither reports CLOSE nor closes the handle. */
  ghost predicate Harmless(h: seq<Action>) { Silent(h) && NoShut(h) }

  lemma {:induction false} HarmlessInARow(x: seq<Action>, y: seq<Action>)
    requires Harmless(x) && Harmless(y)
    ensures Harmless(x + y)
  {
  }

  lemma {:induction false} HandlingHarmless(e: Entry, p: Priority, b: Buffer, ownership: Ownership, env: Env)
    ensures Harmless(HandleSend(e, p, b, ownership, env).actions)
  {
    if Sendable(e.state) && !e.closeRequested && env.memory {
      var w := Warn(e.(out := Enqueue(e.out, p, b)));
      var s := Schedule(w.entry);
      HarmlessInARow([Accepted(p, b)], w.actions);
      HarmlessInARow([Accepted(p, b)] + w.actions, s.actions);
    } else {
      UdpHandlingHarmless(e, [], b, ownership, env);
    }
  }

  lemma {:induction false} UdpHandlingHarmless(e: Entry, address: seq<byte>, b: Buffer, ownership: Ownership, env: Env)
    ensures Harmless(HandleUdpSend(e, address, b, ownership, env).actions)
  {
  }

  /** A send does no harm. */
  lemma {:induction false} SendQuiet(e: Entry, input: Input)
    requires Enabled(e, input) && (input.Send? || input.SendTo?)
    ensures Harmless(Perform(e, input).actions)
  {
    match input
    case Send(p, b, ownership, env) =>
      HandlingHarmless(e, p, b, ownership, env);
      var h := HandleSend(e, p, b, ownership, env);
      HarmlessInARow(h.actions, Destroy(b, h.ownership));
    case SendTo(address, b, ownership, env) =>
      UdpHandlingHarmless(e, address, b, ownership, env);
      var h := HandleUdpSend(e, address, b, ownership, env);
      HarmlessInARow(h.actions, Destroy(b, h.ownership));
  }

  lemma {:induction false} OthersSilent(e: Entry, input: Input)
    requires Enabled(e, input) && !Reports(e, input)
    ensures Silent(Perform(e, input).actions)
  {
    if Opens(input) {
      OpensSilent(e, input);
    } else if Steers(input) {
      SteersSilent(e, input);
    } else {
      match input
      case Pump(env) => PumpSilent(e.(pumpPending := false), env);
      case WriteEnded(status, env) => WriteSilent(e, status, env);
      case CloseIt(force, owner) => QuietClose(e, force, owner);
      case HandleGone =>
        ReleaseSilent(e.out.high);
        ReleaseSilent(e.out.low);
      case _ =>
    }
  }

  lemma {:induction false} QuietClose(e: Entry, force: bool, owner: nat)
    requires e.state.HalfCloseRead? || e.state.Closing?
    ensures Silent(ProcessClose(e, force, owner).actions)
  {
  }

  lemma {:induction false} WriteSilent(e: Entry, status: int, env: Env)
    requires e.out.inflight.Some?
    ensures Silent(WriteDone(e, status, env).actions)
  {
    var b := e.out.inflight.value;
    var f := WriteFailure(e, status);
    var r := Recover(f.entry.(out := Account(f.entry.out, b)));
    var n := AfterWrite(r.entry, env);
    AfterSilent(r.entry, env);
    SilentInARow(f.actions, [Completed(b), Released(b.token)]);
    SilentInARow(f.actions + [Completed(b), Released(b.token)], r.actions);
    SilentInARow(f.actions + [Completed(b), Released(b.token)] + r.actions, n.actions);
  }

  lemma {:induction false} AfterSilent(e: Entry, env: Env)
    ensures Silent(AfterWrite(e, env).actions)
  {
    PumpSilent(e, env);
  }

  lemma {:induction false} SilentInARow(x: seq<Action>, y: seq<Action>)
    requires Silent(x) && Silent(y)
    ensures Silent(x + y)
  {
  }

  lemma {:induction false} ReportsOnce(e: Entry, l: Ledger, input: Input)
    requires Enabled(e, input) && Reports(e, input)
    ensures Tally(l, Perform(e, input).actions).closes == l.closes + 1
  {
    var h := Perform(e, input).actions;
    assert IsClose(h[0]) && Silent(h[1..]);
    SilentTally(Observe(l, h[0]), h[1..]);
  }

  /** An input that reports CLOSE although a deferred close has reported it already. */
  predicate Recloses(e: Entry, input: Input) { Reports(e, input) && e.closeRequested }

  /** One step reports a further CLOSE exactly when it is a CLOSE, a SHUTDOWN or an end of stream on an
      entry whose deferred close is pending and which has not met the end of its stream. */
  lemma {:induction false} FurtherClose(e: Entry, l: Ledger, input: Input)
    requires EntryOk(e, l) && Enabled(e, input) && l.closes <= 1
    ensures Tally(l, Perform(e, input).actions).closes > 1 <==> Recloses(e, input)
  {
    if Reports(e, input) {
      ReportsOnce(e, l, input);
    } else {
      OthersSilent(e, input);
      SilentTally(l, Perform(e, input).actions);
    }
  }

  /** Some step of a run reports CLOSE again. */
  ghost predicate RunRecloses(e: Entry, inputs: seq<Input>)
    requires Runs(e, inputs)
    decreases |inputs|
  {
    inputs != [] &&
    (Recloses(e, inputs[0]) ||
     match Perform(e, inputs[0]).entry case None => false case Some(e') => RunRecloses(e', inputs[1..]))
  }

  lemma {:induction false} ClosesGrow(l: Ledger, h: seq<Action>)
    ensures Tally(l, h).closes >= l.closes && Tally(l, h).handleCloses >= l.handleCloses
    decreases |h|
  {
    if h != [] { ClosesGrow(Observe(l, h[0]), h[1..]); }
  }

  /** Over a whole life CLOSE is reported at most once exactly when no step recloses. */
  lemma {:induction false} CloseReportedOnce(e: Entry, l: Ledger, inputs: seq<Input>)
    requires EntryOk(e, l) && Runs(e, inputs) && l.closes <= 1
    ensures Tally(l, TraceOf(e, inputs)).closes <= 1 <==> !RunRecloses(e, inputs)
    decreases |inputs|
  {
    if inputs != [] {
      var o := Perform(e, inputs[0]);
      FurtherClose(e, l, inputs[0]);
      var l1 := Tally(l, o.actions);
      if o.entry.None? {
        assert o.actions + [] == o.actions;
      } else {
        var rest := TraceOf(o.entry.value, inputs[1..]);
        TallyConcat(l, o.actions, rest);
        if Recloses(e, inputs[0]) {
          ClosesGrow(l1, rest);
        } else {
          StepKeeps(e, l, inputs[0]);
          CloseReportedOnce(o.entry.value, l1, inputs[1..]);
        }
      }
    }
  }

  // ---------- a handle is closed once ----------

  ghost predicate NoShut(h: seq<Action>) { forall i :: 0 <= i < |h| ==> !h[i].HandleClosed? }

  /** The trace ends with the only uv_close in it. */
  ghost predicate EndsShut(h: seq<Action>) {
    |h| > 0 && h[|h| - 1].HandleClosed? && forall i :: 0 <= i < |h| - 1 ==> !h[i].HandleClosed?
  }

  lemma {:induction false} NoShutTally(l: Ledger, h: seq<Action>)
    requires NoShut(h)
    ensures Tally(l, h).handleCloses == l.handleCloses
    decreases |h|
  {
    if h != [] {
      assert !h[0].HandleClosed?;
      NoShutTally(Observe(l, h[0]), h[1..]);
    }
  }

  lemma {:induction false} EndsShutTally(l: Ledger, h: seq<Action>)
    requires EndsShut(h)
    ensures Tally(l, h).handleCloses == l.handleCloses + 1
  {
    var n := |h| - 1;
    assert h == h[..n] + [h[n]];
    TallyConcat(l, h[..n], [h[n]]);
    NoShutTally(l, h[..n]);
    One(Tally(l, h[..n]), h[n]);
  }

  /** A part of an operation closes the handle once when it moves the entry to CLOSING, else not at all. */
  ghost predicate ShutsOnMove(e: Entry, p: Part) {
    if p.entry.state.Closing? && !e.state.Closing? then EndsShut(p.actions) else NoShut(p.actions)
  }

  lemma {:induction false} SubmitShuts(e: Entry, p: Priority, b: Buffer, result: int)
    requires !e.state.Closing?
    ensures ShutsOnMove(e, Submit(e, p, b, result))
  {
    if result != 0 {
      var e1 := e.(out := e.out.(queuedBytes := e.out.queuedBytes - b.size));
      var f := if e.state.HalfCloseRead? then ShutHandle(e1) else Finish(e1, Error, result);
      assert EndsShut(f.actions);
      var head := [Tried(p, b, false), Released(b.token)];
      assert NoShut(head);
      ShutAfter(head, f.actions);
    }
  }

  lemma {:induction false} ShutAfter(x: seq<Action>, y: seq<Action>)
    requires NoShut(x) && EndsShut(y)
    ensures EndsShut(x + y)
  {
  }

  lemma {:induction false} PumpShuts(e: Entry, env: Env)
    requires !e.state.Closing?
    ensures ShutsOnMove(e, PumpWrite(e, env))
  {
    if e.out.inflight.None? {
      if e.out.high != [] {
        SubmitShuts(e.(out := e.out.(high := e.out.high[1..])), High, e.out.high[0], env.write);
      } else if e.out.low != [] {
        SubmitShuts(e.(out := e.out.(low := e.out.low[1..])), Low, e.out.low[0], env.write);
      }
    }
  }

  /** One operation closes the handle at most once, and never a closing one. */
  ghost predicate ShutsSafely(e: Entry, o: Outcome) {
    NoShut(o.actions) || (EndsShut(o.actions) && !e.state.Closing?)
  }

  lemma {:induction false} OpensShut(e: Entry, input: Input)
    requires Enabled(e, input) && Opens(input)
    ensures ShutsSafely(e, Perform(e, input))
  {
    if input.Listen? || input.Connect? { DialsShut(e, input); }
  }

  lemma {:induction false} DialsShut(e: Entry, input: Input)
    requires input.Listen? || input.Connect?
    ensures ShutsSafely(e, Perform(e, input))
  {
  }

  lemma {:induction false} SteersShut(e: Entry, input: Input)
    requires Enabled(e, input) && Steers(input) && Shape(e)
    ensures ShutsSafely(e, Perform(e, input))
  {
    if input.Send? || input.SendTo? { SendQuiet(e, input); }
  }

  /** Every input but a finished write closes the handle at most once, and never a closing one. */
  lemma {:induction false} OthersShut(e: Entry, input: Input)
    requires Enabled(e, input) && !input.WriteEnded? && Shape(e)
    ensures ShutsSafely(e, Perform(e, input))
  {
    if Opens(input) {
      OpensShut(e, input);
    } else if Steers(input) {
      SteersShut(e, input);
    } else {
      match input
      case Pump(env) => if !e.state.Closing? { PumpShuts(e.(pumpPending := false), env); }
      case CloseIt(force, owner) => CloseShuts(e, force, owner);
      case HandleGone =>
        ReleaseSilent(e.out.high);
        ReleaseSilent(e.out.low);
      case _ =>
    }
  }

  lemma {:induction false} CloseShuts(e: Entry, force: bool, owner: nat)
    requires Shape(e)
    ensures ShutsSafely(e, ProcessClose(e, force, owner))
  {
  }

  /** A finished write closes the handle a second time exactly here: a deferred close is pending, nothing is
      queued, and the handle is closing already or the failure of this very write closes it. */
  predicate DoubleCloses(e: Entry, input: Input) {
    && input.WriteEnded? && e.closeRequested && e.out.high == [] && e.out.low == []
    && (input.status != 0 || e.state.Closing?)
  }

  lemma {:induction false} WriteShuts(e: Entry, l: Ledger, status: int, env: Env)
    requires EntryOk(e, l) && e.out.inflight.Some? && l.handleCloses <= 1
    ensures Tally(l, WriteDone(e, status, env).actions).handleCloses > 1 <==> DoubleCloses(e, WriteEnded(status, env))
  {
    var b := e.out.inflight.value;
    var f := WriteFailure(e, status);
    var e1 := f.entry.(out := Account(f.entry.out, b));
    var l1 := Tally(l, f.actions);
    FailureShuts(e, l, status);
    AccountedShuts(e1, l1, b, env);
    var r := Recover(e1);
    var rest := [Completed(b), Released(b.token)] + r.actions + AfterWrite(r.entry, env).actions;
    TallyConcat(l, f.actions, rest);
    assert f.actions + rest == WriteDone(e, status, env).actions;
  }

  /** The uv_close calls after the accounting of a finished write. */
  lemma {:induction false} AccountedShuts(e: Entry, l: Ledger, b: Buffer, env: Env)
    requires e.out.inflight.None?
    ensures var r := Recover(e);
            var closes := Tally(l, [Completed(b), Released(b.token)] + r.actions + AfterWrite(r.entry, env).actions).handleCloses;
            && (e.closeRequested ==> closes == l.handleCloses + OneIf(e.out.high == [] && e.out.low == []))
            && (!e.closeRequested ==> l.handleCloses <= closes <= l.handleCloses + OneIf(!e.state.Closing?))
  {
    var r := Recover(e);
    var mid := [Completed(b), Released(b.token)] + r.actions;
    NoShutTally(l, mid);
    TallyConcat(l, mid, AfterWrite(r.entry, env).actions);
    LastShut(r.entry, Tally(l, mid), env);
  }

  lemma {:induction false} FailureShuts(e: Entry, l: Ledger, status: int)
    ensures var f := WriteFailure(e, status);
            && Tally(l, f.actions).handleCloses == l.handleCloses + OneIf(status != 0 && !e.state.Closing?)
            && (f.entry.state.Closing? <==> status != 0 || e.state.Closing?)
            && f.entry.out == e.out && f.entry.closeRequested == e.closeRequested
  {
    var f := WriteFailure(e, status);
    if NoShut(f.actions) { NoShutTally(l, f.actions); } else { EndsShutTally(l, f.actions); }
  }

  lemma {:induction false} LastShut(e: Entry, l: Ledger, env: Env)
    ensures var closes := Tally(l, AfterWrite(e, env).actions).handleCloses;
            && (e.closeRequested ==> closes == l.handleCloses + OneIf(e.out.inflight.None? && e.out.high == [] && e.out.low == []))
            && (!e.closeRequested ==> l.handleCloses <= closes <= l.handleCloses + OneIf(!e.state.Closing?))
  {
    var n := AfterWrite(e, env);
    if !e.closeRequested && !e.state.Closing? { PumpShuts(e, env); }
    if NoShut(n.actions) { NoShutTally(l, n.actions); } else { EndsShutTally(l, n.actions); }
  }

  /** uv_close is called on a closing handle exactly in the situations of DoubleCloses. */
  lemma {:induction false} SecondHandleClose(e: Entry, l: Ledger, input: Input)
    requires EntryOk(e, l) && Enabled(e, input) && l.handleCloses <= 1
    ensures Tally(l, Perform(e, input).actions).handleCloses > 1 <==> DoubleCloses(e, input)
  {
    if input.WriteEnded? {
      WriteShuts(e, l, input.status, input.env);
    } else {
      var h := Perform(e, input).actions;
      OthersShut(e, input);
      if NoShut(h) { NoShutTally(l, h); } else { EndsShutTally(l, h); }
    }
  }

  // ---------- a deferred close over every continuation ----------

  /** Neither accepted nor submitted. */
  ghost predicate Still(h: seq<Action>) { forall i :: 0 <= i < |h| ==> !h[i].Tried? && !h[i].Accepted? }

  /** Accepted writes that have not completed. */
  function Outstanding(e: Entry): (n: nat) {
    |e.out.high| + |e.out.low| + OneIf(e.out.inflight.Some?)
  }

  /** Writes accepted and not submitted so far. */
  function Waiting(k: Books): (n: int) { |k.acceptedHigh| + |k.acceptedLow| - k.triedHigh - k.triedLow }

  lemma {:induction false} StillTally(l: Ledger, h: seq<Action>)
    requires Still(h)
    ensures var k := Tally(l, h).books; Waiting(k) == Waiting(l.books) && k.acceptedBytes == l.books.acceptedBytes
    decreases |h|
  {
    if h != [] {
      assert !h[0].Tried? && !h[0].Accepted?;
      StillTally(Observe(l, h[0]), h[1..]);
    }
  }

  lemma {:induction false} StillInARow(x: seq<Action>, y: seq<Action>)
    requires Still(x) && Still(y)
    ensures Still(x + y)
  {
  }

  lemma {:induction false} StillReleases(buffers: seq<Buffer>)
    ensures Still(ReleaseAll(buffers))
    decreases |buffers|
  {
    if buffers != [] { StillReleases(buffers[1..]); }
  }

  lemma {:induction false} DeferredFailure(e: Entry, status: int)
    ensures var f := WriteFailure(e, status);
            Still(f.actions) && f.entry.closeRequested == e.closeRequested && f.entry.pumpPending == e.pumpPending
  {
  }

  lemma {:induction false} DeferredAfter(e: Entry, env: Env)
    requires e.closeRequested
    ensures var n := AfterWrite(e, env); Still(n.actions) && n.entry.closeRequested && n.entry.pumpPending == e.pumpPending
  {
  }

  lemma {:induction false} DeferredWrite(e: Entry, status: int, env: Env)
    requires e.out.inflight.Some? && e.closeRequested
    ensures Still(WriteDone(e, status, env).actions)
    ensures var e' := WriteDone(e, status, env).entry.value; e'.closeRequested && e'.pumpPending == e.pumpPending
  {
    var b := e.out.inflight.value;
    var f := WriteFailure(e, status);
    DeferredFailure(e, status);
    var r := Recover(f.entry.(out := Account(f.entry.out, b)));
    var n := AfterWrite(r.entry, env);
    DeferredAfter(r.entry, env);
    StillInARow(f.actions, [Completed(b), Released(b.token)]);
    StillInARow(f.actions + [Completed(b), Released(b.token)], r.actions);
    StillInARow(f.actions + [Completed(b), Released(b.token)] + r.actions, n.actions);
  }

  lemma {:induction false} DeferredClose(e: Entry, force: bool, owner: nat)
    requires e.closeRequested && e.initialized
    ensures Still(ProcessClose(e, force, owner).actions)
    ensures var o := ProcessClose(e, force, owner); o.entry.Some? && o.entry.value.closeRequested && o.entry.value.pumpPending == e.pumpPending
  {
  }

  lemma {:induction false} DeferredGone(e: Entry)
    ensures Still(CloseDone(e).actions)
  {
    StillReleases(e.out.high);
    StillReleases(e.out.low);
    StillInARow(ReleaseAll(e.out.high), ReleaseAll(e.out.low));
  }

  lemma {:induction false} DeferredOther(e: Entry, l: Ledger, input: Input)
    requires EntryOk(e, l) && Enabled(e, input) && e.closeRequested
    requires !input.Pump? && !input.WriteEnded? && !input.CloseIt? && !input.HandleGone?
    ensures Still(Perform(e, input).actions)
    ensures var o := Perform(e, input); o.entry.Some? && o.entry.value.closeRequested && o.entry.value.pumpPending == e.pumpPending
  {
  }

  /** Everything but a pump turn submits nothing and accepts nothing once a close is deferred. */
  lemma {:induction false} DeferredStill(e: Entry, l: Ledger, input: Input)
    requires EntryOk(e, l) && Enabled(e, input) && e.closeRequested && !input.Pump?
    ensures Still(Perform(e, input).actions)
    ensures var o := Perform(e, input); o.entry.Some? ==> o.entry.value.closeRequested && o.entry.value.pumpPending == e.pumpPending
  {
    match input
    case WriteEnded(status, env) => DeferredWrite(e, status, env);
    case CloseIt(force, owner) => DeferredClose(e, force, owner);
    case HandleGone => DeferredGone(e);
    case _ => DeferredOther(e, l, input);
  }

  lemma {:induction false} SubmitFields(e: Entry, p: Priority, b: Buffer, result: int)
    ensures var r := Submit(e, p, b, result);
            && r.entry.closeRequested == e.closeRequested && r.entry.pumpPending == e.pumpPending
            && (r.entry.state.Closing? || Outstanding(r.entry) == |e.out.high| + |e.out.low| + 1)
  {
  }

  lemma {:induction false} SubmitActions(e: Entry, p: Priority, b: Buffer, result: int)
    ensures var h := Submit(e, p, b, result).actions; |h| > 0 && h[0].Tried? && Still(h[1..])
  {
    var h := Submit(e, p, b, result).actions;
    if result != 0 {
      var e1 := e.(out := e.out.(queuedBytes := e.out.queuedBytes - b.size));
      var f := if e.state.HalfCloseRead? then ShutHandle(e1) else Finish(e1, Error, result);
      assert Still(f.actions);
      assert h[1..] == [Released(b.token)] + f.actions;
      StillInARow([Released(b.token)], f.actions);
    }
  }

  lemma {:induction false} TriesOnce(h: seq<Action>, l: Ledger)
    requires |h| > 0 && h[0].Tried? && Still(h[1..])
    ensures Waiting(Tally(l, h).books) == Waiting(l.books) - 1 && Tally(l, h).books.acceptedBytes == l.books.acceptedBytes
  {
    StillTally(Observe(l, h[0]), h[1..]);
  }

  lemma {:induction false} SubmitTriesOnce(e: Entry, p: Priority, b: Buffer, result: int, l: Ledger)
    ensures var r := Submit(e, p, b, result);
            && Waiting(Tally(l, r.actions).books) == Waiting(l.books) - 1 && Tally(l, r.actions).books.acceptedBytes == l.books.acceptedBytes
            && r.entry.closeRequested == e.closeRequested && r.entry.pumpPending == e.pumpPending
            && (r.entry.state.Closing? || Outstanding(r.entry) == |e.out.high| + |e.out.low| + 1)
  {
    SubmitFields(e, p, b, result);
    SubmitActions(e, p, b, result);
    TriesOnce(Submit(e, p, b, result).actions, l);
  }

  lemma {:induction false} PumpTriesOnce(e: Entry, l: Ledger, env: Env)
    ensures var r := PumpWrite(e, env);
            && Waiting(Tally(l, r.actions).books) >= Waiting(l.books) - 1 && Tally(l, r.actions).books.acceptedBytes == l.books.acceptedBytes
            && r.entry.closeRequested == e.closeRequested && r.entry.pumpPending == e.pumpPending
            && (r.entry.state.Closing? || Outstanding(r.entry) == Outstanding(e))
  {
    if e.out.inflight.None? {
      if e.out.high != [] {
        SubmitTriesOnce(e.(out := e.out.(high := e.out.high[1..])), High, e.out.high[0], env.write, l);
      } else if e.out.low != [] {
        SubmitTriesOnce(e.(out := e.out.(low := e.out.low[1..])), Low, e.out.low[0], env.write, l);
      }
    }
  }

  /** One step of a deferred close uses up a place on the pump list for every write it submits. */
  lemma {:induction false} DeferredStep(e: Entry, l: Ledger, input: Input)
    requires EntryOk(e, l) && Enabled(e, input) && e.closeRequested
    ensures var o := Perform(e, input);
            var k := Tally(l, o.actions).books;
            && k.acceptedBytes == l.books.acceptedBytes
            && Waiting(k) - OneIf(o.entry.Some? && o.entry.value.pumpPending) >= Waiting(l.books) - OneIf(e.pumpPending)
            && (o.entry.Some? ==> o.entry.value.closeRequested)
  {
    if input.Pump? {
      PumpTriesOnce(e.(pumpPending := false), l, input.env);
    } else {
      DeferredStill(e, l, input);
      StillTally(l, Perform(e, input).actions);
    }
  }

  /** However the life of an entry with a deferred close goes on, at most one more write is submitted, and that only
      when the entry was on the pump list; and nothing is accepted. */
  lemma {:induction false} DeferredSubmitsOne(e: Entry, l: Ledger, inputs: seq<Input>)
    requires EntryOk(e, l) && e.closeRequested && Runs(e, inputs)
    ensures var k := Tally(l, TraceOf(e, inputs)).books;
            Waiting(k) >= Waiting(l.books) - OneIf(e.pumpPending) && k.acceptedBytes == l.books.acceptedBytes
    decreases |inputs|
  {
    if inputs != [] {
      var o := Perform(e, inputs[0]);
      DeferredStep(e, l, inputs[0]);
      if o.entry.None? {
        assert o.actions + [] == o.actions;
      } else {
        StepKeeps(e, l, inputs[0]);
        TallyConcat(l, o.actions, TraceOf(o.entry.value, inputs[1..]));
        DeferredSubmitsOne(o.entry.value, Tally(l, o.actions), inputs[1..]);
      }
    }
  }

  /** With n writes outstanding when the close is deferred, n - 1 of them are never submitted in any continuation. */
  lemma {:induction false} WritesLost(e: Entry, l: Ledger, inputs: seq<Input>)
    requires EntryOk(e, l) && e.closeRequested && Runs(e, inputs)
    ensures Waiting(Tally(l, TraceOf(e, inputs)).books) >= Outstanding(e) - 1
  {
    DeferredSubmitsOne(e, l, inputs);
  }

  // ---------- CLOSE drains the accepted writes ----------

  /** What becomes of an entry that had n writes outstanding when its close was deferred. */
  predicate Winding(e: Entry, n: nat) {
    e.closeRequested && (e.state.Closing? || Outstanding(e) == n || (e.out.inflight.None? && !e.pumpPending))
  }

  lemma {:induction false} WindingWrite(e: Entry, l: Ledger, n: nat, status: int, env: Env)
    requires EntryOk(e, l) && Winding(e, n) && e.out.inflight.Some?
    ensures Winding(WriteDone(e, status, env).entry.value, n)
  {
  }

  lemma {:induction false} WindingPump(e: Entry, l: Ledger, n: nat, env: Env)
    requires EntryOk(e, l) && Winding(e, n) && e.pumpPending
    ensures Winding(PumpTurn(e, env).entry.value, n)
  {
    if !e.state.Closing? { PumpTriesOnce(e.(pumpPending := false), l, env); }
  }

  lemma {:induction false} WindingClose(e: Entry, l: Ledger, n: nat, force: bool, owner: nat)
    requires EntryOk(e, l) && Winding(e, n)
    ensures var o := ProcessClose(e, force, owner); o.entry.Some? ==> Winding(o.entry.value, n)
  {
  }

  lemma {:induction false} WindingStep(e: Entry, l: Ledger, n: nat, input: Input)
    requires EntryOk(e, l) && Winding(e, n) && Enabled(e, input)
    ensures var o := Perform(e, input); o.entry.Some? ==> Winding(o.entry.value, n)
  {
    match input
    case WriteEnded(status, env) => WindingWrite(e, l, n, status, env);
    case Pump(env) => WindingPump(e, l, n, env);
    case CloseIt(force, owner) => WindingClose(e, l, n, force, owner);
    case _ =>
  }

  /** The invariants along a run. */
  lemma {:induction false} RunKeeps(e: Entry, l: Ledger, inputs: seq<Input>)
    requires EntryOk(e, l) && Runs(e, inputs) && EntryAfter(e, inputs).Some?
    ensures EntryOk(EntryAfter(e, inputs).value, Tally(l, TraceOf(e, inputs)))
    decreases |inputs|
  {
    if inputs != [] {
      var o := Perform(e, inputs[0]);
      StepKeeps(e, l, inputs[0]);
      TallyConcat(l, o.actions, TraceOf(o.entry.value, inputs[1..]));
      RunKeeps(o.entry.value, Tally(l, o.actions), inputs[1..]);
    }
  }

  lemma {:induction false} WindingRun(e: Entry, l: Ledger, n: nat, inputs: seq<Input>)
    requires EntryOk(e, l) && Winding(e, n) && Runs(e, inputs) && EntryAfter(e, inputs).Some?
    ensures Winding(EntryAfter(e, inputs).value, n)
    decreases |inputs|
  {
    if inputs != [] {
      var o := Perform(e, inputs[0]);
      StepKeeps(e, l, inputs[0]);
      WindingStep(e, l, n, inputs[0]);
      WindingRun(o.entry.value, Tally(l, o.actions), n, inputs[1..]);
    }
  }

  /** A first CLOSE of a live TCP entry with queued bytes is deferred and leaves its writes as they are. */
  lemma {:induction false} CloseIsDeferred(e: Entry, l: Ledger, owner: nat)
    requires EntryOk(e, l) && !e.state.Closing? && !e.isUdp && e.out.queuedBytes > 0
    ensures Outstanding(e) > 0
    ensures ProcessClose(e, false, owner).entry == Some(e.(owner := owner, reading := false, closeRequested := true))
  {
    QueuedIsSendable(e, l);
    assert Unused(e.out) ==> Sum(e.out.high) == 0 && Sum(e.out.low) == 0;
  }

  lemma {:induction false} RecoverFields(e: Entry)
    ensures Recover(e).entry == e.(out := e.out.(warnSize := Recover(e).entry.out.warnSize))
  {
  }

  lemma {:induction false} FinalClose(e: Entry)
    requires e.closeRequested && !e.state.Closing?
    ensures var n := CloseAfterWrites(e).entry; n.out == e.out && (n.state.Closing? <==> Outstanding(e) == 0)
  {
  }

  lemma {:induction false} OneCompletion(e: Entry, env: Env)
    requires e.out.inflight.Some? && e.closeRequested && !e.state.Closing?
    ensures var r := WriteDone(e, 0, env).entry.value;
            && (r.state.Closing? <==> Outstanding(e) == 1)
            && r.out.writeBytes == e.out.writeBytes + e.out.inflight.value.size
  {
    var e1 := e.(out := Account(e.out, e.out.inflight.value));
    RecoverFields(e1);
    FinalClose(Recover(e1).entry);
    assert WriteDone(e, 0, env).entry == Some(CloseAfterWrites(Recover(e1).entry).entry);
  }

  /** With one write outstanding and in flight, it is all that is queued. */
  lemma {:induction false} SingleWrite(e: Entry, l: Ledger)
    requires EntryOk(e, l) && Outstanding(e) == 1 && e.out.inflight.Some?
    ensures e.out.inflight.value.size == e.out.queuedBytes
  {
  }

  /** The promise of a deferred close, however its life goes on: when a write completes without error on the live
      handle, that very step closes the handle with everything accepted written, exactly when a single write was
      outstanding at the close. */
  lemma {:induction false} CloseDrainsOnlyOneWrite(e: Entry, l: Ledger, inputs: seq<Input>, env: Env)
    requires EntryOk(e, l) && e.closeRequested && !e.state.Closing? && Runs(e, inputs) && EntryAfter(e, inputs).Some?
    requires var e' := EntryAfter(e, inputs).value; !e'.state.Closing? && e'.out.inflight.Some?
    ensures var r := WriteDone(EntryAfter(e, inputs).value, 0, env).entry.value;
            r.state.Closing? && r.out.writeBytes == l.books.acceptedBytes <==> Outstanding(e) == 1
  {
    var e' := EntryAfter(e, inputs).value;
    var l' := Tally(l, TraceOf(e, inputs));
    RunKeeps(e, l, inputs);
    WindingRun(e, l, Outstanding(e), inputs);
    DeferredSubmitsOne(e, l, inputs);
    OneCompletion(e', env);
    LiveBytes(e', l');
    if Outstanding(e') == 1 { SingleWrite(e', l'); }
  }

  lemma {:induction false} LiveBytes(e: Entry, l: Ledger)
    requires EntryOk(e, l) && !e.state.Closing? && !e.isUdp
    ensures e.out.writeBytes + e.out.queuedBytes == l.books.acceptedBytes
  {
  }

  // ---------- the three promises fail ----------

  const FINE := Env(0, 0, 0, 0, 0, true, 0)

  /** The identifier of the first socket in slot 0 of a table of 65536 slots. */
  const FIRST_ID: int := 0x1_0000

  const BYTE: Buffer := Buffer(0, 1)
  const SECOND: Buffer := Buffer(1, 1)

  /** The socket once bound, and then with some writes accepted and not yet pumped. */
  function Bound(): (e: Entry) {
    Fresh(FIRST_ID, 0).(initialized := true, handle := Open, reading := true, state := Connected)
  }

  function Loaded(queue: seq<Buffer>): (e: Entry) {
    Bound().(pumpPending := true, out := Writer(queue, [], None, [], |queue|, 0, 0))
  }

  /** A socket bound, sent one or two one-byte writes in one batch, and closed in the next. */
  function ClosedEarly(n: nat): (e: Entry)
    requires n == 1 || n == 2
  {
    var w := Writer(if n == 1 then [] else [SECOND], [], Some(BYTE), [], n, 0, 0);
    Bound().(reading := false, closeRequested := true, out := w)
  }

  function Opening(n: nat): (inputs: seq<Input>)
    requires n == 1 || n == 2
  {
    [Bind(FINE), Send(High, BYTE, Owned, FINE)]
    + (if n == 1 then [] else [Send(High, SECOND, Owned, FINE)])
    + [Pump(FINE), CloseIt(false, 0)]
  }

  lemma {:induction false} BindsThere()
    ensures Perform(Fresh(FIRST_ID, 0), Bind(FINE)).entry == Some(Bound())
  {
  }

  lemma {:induction false} SendsThere(b: Buffer, b': Buffer)
    requires b.size == 1 && b'.size == 1
    ensures Perform(Bound(), Send(High, b, Owned, FINE)).entry == Some(Loaded([b]))
    ensures Perform(Loaded([b]), Send(High, b', Owned, FINE)).entry == Some(Loaded([b, b']))
  {
    assert Bound().out.high + [b] == [b];
    assert [b] + [b'] == [b, b'];
  }

  lemma {:induction false} ClosesThere(e: Entry, n: nat)
    requires n == 1 || n == 2
    requires e == Bound().(out := Writer(if n == 1 then [] else [SECOND], [], Some(BYTE), [], n, 0, 0))
    ensures Perform(e, CloseIt(false, 0)).entry == Some(ClosedEarly(n))
  {
  }

  lemma {:induction false} PumpsThere(n: nat, queue: seq<Buffer>)
    requires n == 1 || n == 2
    requires queue == if n == 1 then [BYTE] else [BYTE, SECOND]
    ensures Runs(Loaded(queue), [Pump(FINE), CloseIt(false, 0)])
    ensures EntryAfter(Loaded(queue), [Pump(FINE), CloseIt(false, 0)]) == Some(ClosedEarly(n))
  {
    assert queue[1..] == if n == 1 then [] else [SECOND];
    var e := Bound().(out := Writer(queue[1..], [], Some(BYTE), [], n, 0, 0));
    assert Perform(Loaded(queue), Pump(FINE)).entry == Some(e);
    ClosesThere(e, n);
    LastOf(e, CloseIt(false, 0), ClosedEarly(n));
    Prepend(Loaded(queue), Pump(FINE), e, [CloseIt(false, 0)], ClosedEarly(n));
  }

  lemma {:induction false} OpeningReaches(n: nat)
    requires n == 1 || n == 2
    ensures Runs(Fresh(FIRST_ID, 0), Opening(n)) && EntryAfter(Fresh(FIRST_ID, 0), Opening(n)) == Some(ClosedEarly(n))
  {
    var tail := [Pump(FINE), CloseIt(false, 0)];
    BindsThere();
    SendsThere(BYTE, SECOND);
    if n == 1 {
      PumpsThere(1, [BYTE]);
      Prepend(Bound(), Send(High, BYTE, Owned, FINE), Loaded([BYTE]), tail, ClosedEarly(n));
      assert Opening(n) == [Bind(FINE)] + ([Send(High, BYTE, Owned, FINE)] + tail);
      Prepend(Fresh(FIRST_ID, 0), Bind(FINE), Bound(), [Send(High, BYTE, Owned, FINE)] + tail, ClosedEarly(n));
    } else {
      var tail' := [Send(High, SECOND, Owned, FINE)] + tail;
      PumpsThere(2, [BYTE, SECOND]);
      Prepend(Loaded([BYTE]), Send(High, SECOND, Owned, FINE), Loaded([BYTE, SECOND]), tail, ClosedEarly(n));
      Prepend(Bound(), Send(High, BYTE, Owned, FINE), Loaded([BYTE]), tail', ClosedEarly(n));
      assert Opening(n) == [Bind(FINE)] + ([Send(High, BYTE, Owned, FINE)] + tail');
      Prepend(Fresh(FIRST_ID, 0), Bind(FINE), Bound(), [Send(High, BYTE, Owned, FINE)] + tail', ClosedEarly(n));
    }
  }

  lemma {:induction false} LastOf(e: Entry, input: Input, end: Entry)
    requires Enabled(e, input) && Perform(e, input).entry == Some(end)
    ensures Runs(e, [input]) && EntryAfter(e, [input]) == Some(end)
  {
    assert [input][1..] == [];
    assert Runs(end, []) && EntryAfter(end, []) == Some(end);
  }

  lemma {:induction false} Prepend(e: Entry, input: Input, e': Entry, rest: seq<Input>, end: Entry)
    requires Enabled(e, input) && Perform(e, input).entry == Some(e') && Runs(e', rest) && EntryAfter(e', rest) == Some(end)
    ensures Runs(e, [input] + rest) && EntryAfter(e, [input] + rest) == Some(end)
  {
    assert ([input] + rest)[1..] == rest;
  }

  /** A run goes on. */
  lemma {:induction false} RunsOn(e: Entry, inputs: seq<Input>, more: seq<Input>)
    requires Runs(e, inputs) && EntryAfter(e, inputs).Some? && Runs(EntryAfter(e, inputs).value, more)
    ensures Runs(e, inputs + more)
    ensures TraceOf(e, inputs + more) == TraceOf(e, inputs) + TraceOf(EntryAfter(e, inputs).value, more)
    decreases |inputs|
  {
    if inputs == [] {
      assert inputs + more == more;
    } else {
      assert (inputs + more)[0] == inputs[0] && (inputs + more)[1..] == inputs[1..] + more;
      var o := Perform(e, inputs[0]);
      RunsOn(o.entry.value, inputs[1..], more);
      assert o.actions + (TraceOf(o.entry.value, inputs[1..]) + TraceOf(EntryAfter(e, inputs).value, more))
          == o.actions + TraceOf(o.entry.value, inputs[1..]) + TraceOf(EntryAfter(e, inputs).value, more);
    }
  }

  /** The ledger of a new socket after a run. */
  ghost function After(inputs: seq<Input>): (l: Ledger)
    requires Runs(Fresh(FIRST_ID, 0), inputs)
  {
    Tally(Blank(0), TraceOf(Fresh(FIRST_ID, 0), inputs))
  }

  lemma {:induction false} OpeningOk(n: nat) returns (l: Ledger)
    requires n == 1 || n == 2
    ensures Runs(Fresh(FIRST_ID, 0), Opening(n)) && l == After(Opening(n)) && EntryOk(ClosedEarly(n), l)
  {
    OpeningReaches(n);
    FreshRun(FIRST_ID, 0, Opening(n));
    l := After(Opening(n));
  }

  lemma {:induction false} FreshRun(id: int, owner: nat, inputs: seq<Input>)
    requires Runs(Fresh(id, owner), inputs) && EntryAfter(Fresh(id, owner), inputs).Some?
    ensures EntryOk(EntryAfter(Fresh(id, owner), inputs).value, Tally(Blank(0), TraceOf(Fresh(id, owner), inputs)))
  {
    FreshOk(id, owner, 0);
    RunKeeps(Fresh(id, owner), Blank(0), inputs);
  }

  lemma {:induction false} OneMore(n: nat, input: Input)
    requires (n == 1 || n == 2) && Enabled(ClosedEarly(n), input) && Perform(ClosedEarly(n), input).entry.Some?
    ensures Runs(Fresh(FIRST_ID, 0), Opening(n)) && Runs(Fresh(FIRST_ID, 0), Opening(n) + [input])
    ensures After(Opening(n) + [input]) == Tally(After(Opening(n)), Perform(ClosedEarly(n), input).actions)
  {
    OpeningReaches(n);
    var e' := Perform(ClosedEarly(n), input).entry.value;
    LastOf(ClosedEarly(n), input, e');
    RunsOn(Fresh(FIRST_ID, 0), Opening(n), [input]);
    assert TraceOf(ClosedEarly(n), [input]) == Perform(ClosedEarly(n), input).actions by {
      assert [input][1..] == [];
      assert Perform(ClosedEarly(n), input).actions + [] == Perform(ClosedEarly(n), input).actions;
    }
    TallyConcat(Blank(0), TraceOf(Fresh(FIRST_ID, 0), Opening(n)), Perform(ClosedEarly(n), input).actions);
  }

  /** One write pending and the peer resets: the handle is passed to uv_close twice. */
  lemma {:induction false} ClosesTwice()
    ensures Runs(Fresh(FIRST_ID, 0), Opening(1) + [WriteEnded(-104, FINE)])
    ensures After(Opening(1) + [WriteEnded(-104, FINE)]).handleCloses > 1
  {
    var l := OpeningOk(1);
    OneMore(1, WriteEnded(-104, FINE));
    SecondHandleClose(ClosedEarly(1), l, WriteEnded(-104, FINE));
  }

  /** One write pending and a second CLOSE: it is reported twice. */
  lemma {:induction false} ReportsTwice()
    ensures Runs(Fresh(FIRST_ID, 0), Opening(1) + [CloseIt(false, 0)])
    ensures After(Opening(1) + [CloseIt(false, 0)]).closes > 1
  {
    var l := OpeningOk(1);
    OneMore(1, CloseIt(false, 0));
    ReportsOnce(ClosedEarly(1), l, CloseIt(false, 0));
  }

  /** Two writes pending: whatever happens next, one of them is never submitted. */
  lemma {:induction false} LosesOne(inputs: seq<Input>)
    requires Runs(ClosedEarly(2), inputs)
    ensures Runs(Fresh(FIRST_ID, 0), Opening(2) + inputs) && Waiting(After(Opening(2) + inputs).books) > 0
  {
    var l := OpeningOk(2);
    OpeningReaches(2);
    RunsOn(Fresh(FIRST_ID, 0), Opening(2), inputs);
    TallyConcat(Blank(0), TraceOf(Fresh(FIRST_ID, 0), Opening(2)), TraceOf(ClosedEarly(2), inputs));
    WritesLost(ClosedEarly(2), l, inputs);
  }
}
