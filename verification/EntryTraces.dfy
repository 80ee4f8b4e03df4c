/** What a socket has done so far, read off its action trace, and the invariant that ties an entry
    to its trace. Every operation of SocketEntries is shown to keep it. */
module EntryTraces {
  import opened Options
  import opened SocketEntries
  import Bits
  import Udp = UdpAddresses

  // ---------- buffers ----------

  function Sum(buffers: seq<Buffer>): (n: nat) {
    if buffers == [] then 0 else buffers[0].size + Sum(buffers[1..])
  }

  /** How often a token occurs among some buffers. */
  function Copies(buffers: seq<Buffer>, t: nat): (n: nat) {
    if buffers == [] then 0 else (if buffers[0].token == t then 1 else 0) + Copies(buffers[1..], t)
  }

  lemma {:induction false} AppendSum(buffers: seq<Buffer>, b: Buffer)
    ensures Sum(buffers + [b]) == Sum(buffers) + b.size
  {
    if buffers != [] {
      AppendSum(buffers[1..], b);
      assert (buffers + [b])[1..] == buffers[1..] + [b];
    } else {
      assert (buffers + [b])[1..] == [];
    }
  }

  lemma {:induction false} AppendCopies(buffers: seq<Buffer>, b: Buffer, t: nat)
    ensures Copies(buffers + [b], t) == Copies(buffers, t) + if b.token == t then 1 else 0
  {
    if buffers != [] {
      AppendCopies(buffers[1..], b, t);
      assert (buffers + [b])[1..] == buffers[1..] + [b];
    } else {
      assert (buffers + [b])[1..] == [];
    }
  }

  lemma {:induction false} RemoveCopies(buffers: seq<Buffer>, i: nat, t: nat)
    requires i < |buffers|
    ensures Copies(buffers, t) == Copies(buffers[..i] + buffers[i + 1..], t) + if buffers[i].token == t then 1 else 0
  {
    var rest := buffers[..i] + buffers[i + 1..];
    if i == 0 {
      assert rest == buffers[1..];
    } else {
      RemoveCopies(buffers[1..], i - 1, t);
      assert rest[0] == buffers[0];
      assert rest[1..] == buffers[1..][..i - 1] + buffers[1..][i..];
    }
  }

  function InflightSize(w: Writer): (n: nat) { if w.inflight.Some? then w.inflight.value.size else 0 }

  function OneIf(c: bool): (n: nat) { if c then 1 else 0 }

  /** How many of the buffers an entry is responsible for carry a token. */
  function Holds(w: Writer, t: nat): (n: nat) {
    Copies(w.high, t) + Copies(w.low, t) + OneIf(w.inflight.Some? && w.inflight.value.token == t) + Copies(w.datagrams, t)
  }

  function HoldsIn(e: Option<Entry>, t: nat): (n: nat) {
    if e.Some? then Holds(e.value.out, t) else 0
  }

  // ---------- traces ----------

  /** The edges of the socket state graph. */
  predicate Edge(from: SocketState, to: SocketState) {
    to.Closing? ||
    match from
    case Reserved => to.ListenPending? || to.Connecting? || to.Connected? || to.Udp? || to.AcceptedPaused?
    case ListenPending => to.Listening?
    case Connecting => to.Connected?
    case AcceptedPaused => to.Connected?
    case Connected => to.ConnectedPaused? || to.HalfCloseRead?
    case ConnectedPaused => to.Connected?
    case _ => false
  }

  /** The running account of the writes in a trace: those accepted, in order, and how many of them were
      tried, per priority; writes in flight; bytes accepted, completed, refused by uv_write, and delivered as datagrams;
      warnings since the last recovery. */
  datatype Books = Books(
    acceptedHigh: seq<Buffer>, acceptedLow: seq<Buffer>, triedHigh: nat, triedLow: nat,
    outstanding: int, acceptedBytes: nat, completedBytes: nat, droppedBytes: nat, deliveredBytes: nat, warnings: nat)

  /** The bytes accepted and neither completed nor refused. */
  function Unsettled(k: Books): (n: int) { k.acceptedBytes - k.completedBytes - k.droppedBytes }

  /** The running account of a trace: whether every action was allowed, the state last entered, CLOSE
      events, uv_close calls, places taken on the pump list, releases of the one token `watch`, and the
      books. */
  datatype Ledger = Ledger(
    legal: bool, state: SocketState, closes: nat, handleCloses: nat, scheduled: nat, watch: nat, freed: nat, books: Books)

  function Blank(watch: nat): (l: Ledger) {
    Ledger(true, Reserved, 0, 0, 0, watch, 0, Books([], [], 0, 0, 0, 0, 0, 0, 0, 0))
  }

  function AcceptedAt(k: Books, p: Priority): (s: seq<Buffer>) { if p.High? then k.acceptedHigh else k.acceptedLow }
  function TriedAt(k: Books, p: Priority): (n: nat) { if p.High? then k.triedHigh else k.triedLow }

  /** What the rules of the runtime allow next. */
  predicate Permitted(l: Ledger, a: Action) {
    match a
    case Entered(s) => Edge(l.state, s)
    case Accepted(_, _) => Sendable(l.state)
    case Tried(p, b, _) => Sendable(l.state) && TryAllowed(l.books, p, b)
    case Completed(_) => l.books.outstanding == 1
    case Emitted(event) => (event.kind.Data? ==> l.state.Connected?) && WarningAllowed(l.books, event)
    case _ => true
  }

  /** A write may be tried when none is in flight, in order within its priority, low after all of high. */
  predicate TryAllowed(k: Books, p: Priority, b: Buffer) {
    && k.outstanding == 0
    && TriedAt(k, p) < |AcceptedAt(k, p)| && AcceptedAt(k, p)[TriedAt(k, p)] == b
    && (p.Low? ==> k.triedHigh == |k.acceptedHigh|)
  }

  /** A zero warning ends an epoch that had one; the n-th other one comes at 2^(n-1) MiB or more and says how much. */
  predicate WarningAllowed(k: Books, event: Event) {
    event.kind.Warning? ==>
      if event.value == 0 then k.warnings > 0
      else Unsettled(k) >= 0x10_0000 * Bits.Pow2(k.warnings) && event.value == WarningValue(Unsettled(k))
  }

  function Enter(k: Books, a: Action): (k': Books) {
    match a
    case Accepted(p, b) =>
      if p.High? then k.(acceptedHigh := k.acceptedHigh + [b], acceptedBytes := k.acceptedBytes + b.size)
      else k.(acceptedLow := k.acceptedLow + [b], acceptedBytes := k.acceptedBytes + b.size)
    case Tried(p, b, taken) =>
      var k1 := if p.High? then k.(triedHigh := k.triedHigh + 1) else k.(triedLow := k.triedLow + 1);
      if taken then k1.(outstanding := k.outstanding + 1) else k1.(droppedBytes := k.droppedBytes + b.size)
    case Completed(b) => k.(outstanding := k.outstanding - 1, completedBytes := k.completedBytes + b.size)
    case Delivered(b) => k.(deliveredBytes := k.deliveredBytes + b.size)
    case Emitted(event) =>
      if event.kind.Warning? then k.(warnings := if event.value == 0 then 0 else k.warnings + 1) else k
    case _ => k
  }

  function Observe(l: Ledger, a: Action): (l': Ledger) {
    Ledger(
      l.legal && Permitted(l, a),
      if a.Entered? then a.state else l.state,
      if a.Emitted? && a.event.kind.Close? then l.closes + 1 else l.closes,
      if a.HandleClosed? then l.handleCloses + 1 else l.handleCloses,
      if a.Scheduled? then l.scheduled + 1 else l.scheduled,
      l.watch,
      if a == Released(l.watch) then l.freed + 1 else l.freed,
      Enter(l.books, a))
  }

  function Tally(l: Ledger, trace: seq<Action>): (l': Ledger)
    decreases |trace|
  {
    if trace == [] then l else Tally(Observe(l, trace[0]), trace[1..])
  }

  /** Traces compose. */
  lemma {:induction false} TallyConcat(l: Ledger, x: seq<Action>, y: seq<Action>)
    ensures Tally(l, x + y) == Tally(Tally(l, x), y)
    decreases |x|
  {
    if x == [] {
      assert x + y == y;
    } else {
      assert (x + y)[0] == x[0] && (x + y)[1..] == x[1..] + y;
      TallyConcat(Observe(l, x[0]), x[1..], y);
    }
  }

  lemma {:induction false} One(l: Ledger, a: Action)
    ensures Tally(l, [a]) == Observe(l, a)
  {
    assert [a][1..] == [];
    assert Tally(Observe(l, a), []) == Observe(l, a);
  }

  lemma {:induction false} Two(l: Ledger, a: Action, b: Action)
    ensures Tally(l, [a, b]) == Observe(Observe(l, a), b)
  {
    assert [a, b][1..] == [b];
    One(Observe(l, a), b);
  }

  lemma {:induction false} Three(l: Ledger, a: Action, b: Action, c: Action)
    ensures Tally(l, [a, b, c]) == Observe(Observe(Observe(l, a), b), c)
  {
    assert [a, b, c][1..] == [b, c];
    Two(Observe(l, a), b, c);
  }

  // ---------- the invariant of an entry ----------

  ghost predicate Sized(buffers: seq<Buffer>) { forall i :: 0 <= i < |buffers| ==> buffers[i].size > 0 }

  /** A queue is what was accepted and not yet tried, in order. */
  ghost predicate Rest(queue: seq<Buffer>, accepted: seq<Buffer>, tried: nat) {
    && tried + |queue| == |accepted|
    && forall i :: 0 <= i < |queue| ==> queue[i] == accepted[tried + i]
  }

  /** The queues hold exactly what was accepted and not yet tried, and every byte is accounted for. */
  ghost predicate Balanced(w: Writer, k: Books) {
    && Rest(w.high, k.acceptedHigh, k.triedHigh)
    && Rest(w.low, k.acceptedLow, k.triedLow)
    && k.outstanding == (if w.inflight.Some? then 1 else 0)
    && Sized(w.high) && Sized(w.low) && (w.inflight.Some? ==> w.inflight.value.size > 0)
    && w.queuedBytes == Sum(w.high) + Sum(w.low) + InflightSize(w)
    && w.queuedBytes == Unsettled(k) && w.writeBytes == k.completedBytes + k.deliveredBytes
    && w.warnSize == (if k.warnings == 0 then 0 else 0x10_0000 * Bits.Pow2(k.warnings))
  }

  /** Nothing was ever queued, in flight or delivered. */
  predicate Unused(w: Writer) { w.high == [] && w.low == [] && w.inflight.None? }

  /** Which fields go with which state. */
  ghost predicate Shape(e: Entry) {
    && (e.handle.Shut? <==> e.state.Closing?)
    && (e.handle.Absent? <==> !e.initialized)
    && (e.initialized <==> !e.state.Reserved?)
    && !e.state.ListenPending?
    && (e.reading ==> e.state.Connected? || e.state.Closing?)
    && (!Unused(e.out) || e.closeRequested || e.pumpPending ==> Sendable(e.state) || e.state.Closing?)
    && (e.state.Connecting? ==> e.connectPending)
    && (e.connectPending ==> e.state.Connecting? || e.state.Closing?)
    && (e.state.Udp? ==> e.isUdp)
    && (e.isUdp ==> e.state.Udp? || e.state.Closing?)
    && (e.pumpPending ==> e.out.inflight.None?)
  }

  /** TCP and UDP never mix in one entry, and nothing is accepted before it is connected. */
  ghost predicate OneTransport(e: Entry, k: Books) {
    && (e.isUdp ==> Unused(e.out) && !e.closeRequested && !e.pumpPending && k.acceptedBytes == 0)
    && (!e.isUdp ==> e.out.datagrams == [] && k.deliveredBytes == 0)
    && (!Sendable(e.state) && !e.state.Closing? ==> k.acceptedBytes == 0)
  }

  ghost predicate Closes(e: Entry, l: Ledger) {
    && (l.closes > 0 ==> e.closeRequested || e.state.HalfCloseRead? || e.state.Closing?)
    && (e.closeRequested || e.state.HalfCloseRead? ==> l.closes > 0)
    && (l.handleCloses > 0 <==> e.handle.Shut?)
    && (l.books.droppedBytes > 0 ==> e.state.Closing?)
  }

  /** What holds at every point inside an operation on an initialised entry. */
  ghost predicate Core(e: Entry, l: Ledger) {
    l.legal && l.state == e.state && Shape(e) && OneTransport(e, l.books) && Balanced(e.out, l.books) && Closes(e, l)
  }

  /** No queued write waits without a write in flight or a place on the pump list to start it. */
  ghost predicate Moving(e: Entry) {
    !e.state.Closing? && !e.closeRequested && (e.out.high != [] || e.out.low != []) ==> e.out.inflight.Some? || e.pumpPending
  }

  /** A live entry with nothing queued has no warning outstanding. */
  ghost predicate Calm(e: Entry) {
    !e.state.Closing? && e.out.queuedBytes == 0 ==> e.out.warnSize == 0
  }

  ghost predicate EntryOk(e: Entry, l: Ledger) { Core(e, l) && Moving(e) && Calm(e) }

  /** An operation keeps the invariant, accounts for every buffer (`incoming` counts the watched one
      when it arrives with the operation), and changes the pump flag together with the pump list. */
  ghost predicate Sent(e: Entry, l: Ledger, incoming: nat, o: Outcome) {
    var l' := Tally(l, o.actions);
    && l'.legal
    && HoldsIn(o.entry, l.watch) + l'.freed == Holds(e.out, l.watch) + l.freed + incoming
    && (o.entry.Some? ==> EntryOk(o.entry.value, l') && o.entry.value.id == e.id)
    && PumpKept(e, o.entry, l'.scheduled - l.scheduled)
  }

  /** The same, for an operation that leaves the pump list alone. */
  ghost predicate Good(e: Entry, l: Ledger, incoming: nat, o: Outcome) {
    Sent(e, l, incoming, o) && Tally(l, o.actions).scheduled == l.scheduled
  }

  ghost predicate PumpKept(e: Entry, after: Option<Entry>, scheduled: int) {
    && scheduled == OneIf(after.Some? && after.value.pumpPending) - OneIf(e.pumpPending)
    && scheduled >= 0
  }

  /** A part of an operation that closes or reports: no buffer moves, nothing is scheduled. */
  ghost predicate Quiet(e: Entry, l: Ledger, p: Part) {
    var l' := Tally(l, p.actions);
    l'.freed == l.freed && l'.scheduled == l.scheduled && l'.watch == l.watch && p.entry.out == e.out
    && p.entry.pumpPending == e.pumpPending && p.entry.id == e.id
  }

  lemma {:induction false} FreshOk(id: int, owner: nat, t: nat)
    ensures EntryOk(Fresh(id, owner), Blank(t))
  {
  }

  lemma {:induction false} FreshEmpty(id: int, owner: nat, t: nat)
    ensures Holds(Fresh(id, owner).out, t) == 0
  {
  }

  // ---------- closing a handle ----------

  lemma {:induction false} ShutKeeps(e: Entry, l: Ledger)
    requires Core(e, l) && e.initialized
    ensures var p := ShutHandle(e); EntryOk(p.entry, Tally(l, p.actions)) && Quiet(e, l, p)
  {
    Two(l, Entered(Closing), HandleClosed);
  }

  /** Also for an entry whose handle was just initialised and whose state has not moved yet. */
  lemma {:induction false} RejectKeeps(e: Entry, l: Ledger, error: int)
    requires e.initialized && l.legal && l.state == e.state && l.handleCloses == 0
    requires e.isUdp ==> Unused(e.out) && !e.closeRequested && !e.pumpPending && l.books.acceptedBytes == 0
    requires !e.isUdp ==> e.out.datagrams == [] && l.books.deliveredBytes == 0
    requires Balanced(e.out, l.books)
    requires (e.closeRequested ==> l.closes > 0) && (e.pumpPending ==> e.out.inflight.None?)
    ensures var o := Reject(e, error); o.entry.Some? && EntryOk(o.entry.value, Tally(l, o.actions))
                                       && Quiet(e, l, Part(o.entry.value, o.actions))
  {
    var a := Emit(e, Error, error);
    Three(l, a, Entered(Closing), HandleClosed);
    assert [a] + [Entered(Closing), HandleClosed] == [a, Entered(Closing), HandleClosed];
  }

  lemma {:induction false} FinishKeeps(e: Entry, l: Ledger, value: int)
    requires Core(e, l) && e.initialized
    ensures var p := Finish(e, Error, value);
            EntryOk(p.entry, Tally(l, p.actions)) && Quiet(e, l, p) && p.entry.state.Closing?
  {
    if !e.state.Closing? { RejectKeeps(e, l, value); }
  }
}
