/** What the invariant of an entry says about its whole trace, in terms of positions in the trace:
    write order, one write in flight, the state graph, data and pausing, and warnings. */
module EntryTheorems {
  import opened Options
  import opened SocketEntries
  import opened EntryTraces
  import Bits

  /** The account after the first i actions. */
  function At(h: seq<Action>, i: nat): (l: Ledger)
    requires i <= |h|
  {
    Tally(Blank(0), h[..i])
  }

  /** Every action was allowed when it happened. */
  ghost predicate Legal(h: seq<Action>) { Tally(Blank(0), h).legal }

  lemma {:induction false} AtSteps(h: seq<Action>, i: nat)
    requires i < |h|
    ensures At(h, i + 1) == Observe(At(h, i), h[i])
  {
    assert h[..i + 1] == h[..i] + [h[i]];
    TallyConcat(Blank(0), h[..i], [h[i]]);
    One(At(h, i), h[i]);
  }

  lemma {:induction false} LegalBefore(h: seq<Action>, i: nat)
    requires i <= |h| && Legal(h)
    ensures At(h, i).legal
    decreases |h| - i
  {
    if i == |h| {
      assert h[..i] == h;
    } else {
      LegalBefore(h, i + 1);
      AtSteps(h, i);
    }
  }

  /** An action in a legal trace was permitted by what came before it. */
  lemma {:induction false} PermittedAt(h: seq<Action>, i: nat)
    requires i < |h| && Legal(h)
    ensures Permitted(At(h, i), h[i])
  {
    LegalBefore(h, i + 1);
    AtSteps(h, i);
  }

  /** The watched token does not influence what is legal or what is counted. */
  lemma {:induction false} WatchIrrelevant(l: Ledger, m: Ledger, h: seq<Action>)
    requires m == l.(watch := m.watch, freed := m.freed)
    ensures Tally(m, h) == Tally(l, h).(watch := m.watch, freed := Tally(m, h).freed)
    decreases |h|
  {
    if h != [] { WatchIrrelevant(Observe(l, h[0]), Observe(m, h[0]), h[1..]); }
  }

  // ---------- states ----------

  lemma {:induction false} StaysClosing(h: seq<Action>, i: nat, j: nat)
    requires Legal(h) && i < j <= |h| && h[i] == Entered(Closing)
    ensures At(h, j).state == Closing
    decreases j
  {
    AtSteps(h, j - 1);
    if j - 1 > i {
      StaysClosing(h, i, j - 1);
      PermittedAt(h, j - 1);
    }
  }

  /** CLOSING is absorbing, and nothing is accepted, tried or received in it. */
  lemma {:induction false} ClosingIsFinal(h: seq<Action>, i: nat, j: nat)
    requires Legal(h) && i < j < |h| && h[i] == Entered(Closing)
    ensures h[j].Entered? ==> h[j].state.Closing?
    ensures !h[j].Accepted? && !h[j].Tried? && !(h[j].Emitted? && h[j].event.kind.Data?)
  {
    StaysClosing(h, i, j);
    PermittedAt(h, j);
  }

  lemma {:induction false} StaysHalfClosed(h: seq<Action>, i: nat, j: nat)
    requires Legal(h) && i < j <= |h| && h[i] == Entered(HalfCloseRead)
    ensures At(h, j).state.HalfCloseRead? || At(h, j).state.Closing?
    decreases j
  {
    AtSteps(h, j - 1);
    if j - 1 > i {
      StaysHalfClosed(h, i, j - 1);
      PermittedAt(h, j - 1);
    }
  }

  /** After a remote end of stream the only way on is CLOSING, and no data arrives. */
  lemma {:induction false} HalfCloseOnlyCloses(h: seq<Action>, i: nat, j: nat)
    requires Legal(h) && i < j < |h| && h[i] == Entered(HalfCloseRead)
    ensures h[j].Entered? ==> h[j].state.Closing?
    ensures !(h[j].Emitted? && h[j].event.kind.Data?)
  {
    StaysHalfClosed(h, i, j);
    PermittedAt(h, j);
  }

  lemma {:induction false} StaysPaused(h: seq<Action>, i: nat, j: nat)
    requires Legal(h) && i < j <= |h| && h[i] == Entered(ConnectedPaused)
    requires forall k :: i < k < j ==> h[k] != Entered(Connected)
    ensures At(h, j).state.ConnectedPaused? || At(h, j).state.Closing?
    decreases j
  {
    AtSteps(h, j - 1);
    if j - 1 > i {
      StaysPaused(h, i, j - 1);
      PermittedAt(h, j - 1);
    }
  }

  /** Between a processed PAUSE and a DATA event reading was started again. */
  lemma {:induction false} NoDataWhilePaused(h: seq<Action>, i: nat, j: nat)
    requires Legal(h) && i < j < |h| && h[i] == Entered(ConnectedPaused)
    requires h[j].Emitted? && h[j].event.kind.Data?
    ensures exists k :: i < k < j && h[k] == Entered(Connected)
  {
    if forall k :: i < k < j ==> h[k] != Entered(Connected) {
      StaysPaused(h, i, j);
      PermittedAt(h, j);
    }
  }

  // ---------- write order ----------

  /** The buffers accepted with one priority, in order. */
  function AcceptedIn(h: seq<Action>, p: Priority): (s: seq<Buffer>) {
    if h == [] then []
    else
      var last := h[|h| - 1];
      AcceptedIn(h[..|h| - 1], p) + if last.Accepted? && last.priority == p then [last.buffer] else []
  }

  /** The buffers handed to uv_write with one priority, in order. */
  function TriedIn(h: seq<Action>, p: Priority): (s: seq<Buffer>) {
    if h == [] then []
    else
      var last := h[|h| - 1];
      TriedIn(h[..|h| - 1], p) + if last.Tried? && last.priority == p then [last.buffer] else []
  }

  lemma {:induction false} InStep(h: seq<Action>, g: seq<Action>, a: Action, p: Priority)
    requires h == g + [a]
    ensures AcceptedIn(h, p) == AcceptedIn(g, p) + if a.Accepted? && a.priority == p then [a.buffer] else []
    ensures TriedIn(h, p) == TriedIn(g, p) + if a.Tried? && a.priority == p then [a.buffer] else []
  {
    assert h[..|h| - 1] == g && h[|h| - 1] == a;
  }

  lemma {:induction false} BooksMatch(h: seq<Action>, p: Priority)
    requires Legal(h)
    ensures AcceptedAt(Tally(Blank(0), h).books, p) == AcceptedIn(h, p)
    ensures TriedAt(Tally(Blank(0), h).books, p) == |TriedIn(h, p)| <= |AcceptedIn(h, p)|
    ensures TriedIn(h, p) == AcceptedIn(h, p)[..|TriedIn(h, p)|]
    decreases |h|
  {
    if h != [] {
      var i := |h| - 1;
      var g := h[..i];
      LegalBefore(h, i);
      BooksMatch(g, p);
      AtSteps(h, i);
      PermittedAt(h, i);
      assert h[..i + 1] == h && h == g + [h[i]];
      InStep(h, g, h[i], p);
      BooksStep(At(h, i), h[i], p);
    }
  }

  lemma {:induction false} BooksStep(l: Ledger, a: Action, p: Priority)
    ensures AcceptedAt(Observe(l, a).books, p)
            == AcceptedAt(l.books, p) + if a.Accepted? && a.priority == p then [a.buffer] else []
    ensures TriedAt(Observe(l, a).books, p) == TriedAt(l.books, p) + OneIf(a.Tried? && a.priority == p)
  {
  }

  /** Each priority is served in the order it was accepted. */
  lemma {:induction false} TriedIsPrefix(h: seq<Action>, p: Priority)
    requires Legal(h)
    ensures TriedIn(h, p) <= AcceptedIn(h, p)
  {
    BooksMatch(h, p);
  }

  /** A low-priority write goes out only when every accepted high-priority write has. */
  lemma {:induction false} LowYieldsToHigh(h: seq<Action>, i: nat)
    requires Legal(h) && i < |h| && h[i].Tried? && h[i].priority.Low?
    ensures TriedIn(h[..i], High) == AcceptedIn(h[..i], High)
  {
    PermittedAt(h, i);
    LegalBefore(h, i);
    BooksMatch(h[..i], High);
  }

  lemma {:induction false} WritingUntilCompleted(h: seq<Action>, i: nat, j: nat)
    requires Legal(h) && i < j <= |h| && h[i].Tried? && h[i].taken
    requires forall k :: i < k < j ==> !h[k].Completed?
    ensures At(h, j).books.outstanding == 1
    decreases j
  {
    AtSteps(h, j - 1);
    PermittedAt(h, j - 1);
    if j - 1 > i { WritingUntilCompleted(h, i, j - 1); }
  }

  /** At most one write is in flight: between two submissions the first one completed. */
  lemma {:induction false} OneWriteInFlight(h: seq<Action>, i: nat, j: nat)
    requires Legal(h) && i < j < |h| && h[i].Tried? && h[i].taken && h[j].Tried?
    ensures exists k :: i < k < j && h[k].Completed?
  {
    if forall k :: i < k < j ==> !h[k].Completed? {
      WritingUntilCompleted(h, i, j);
      PermittedAt(h, j);
    }
  }

  // ---------- warnings ----------

  predicate IsWarning(a: Action) { a.Emitted? && a.event.kind.Warning? }

  /** Non-zero warnings since the last zero one. */
  function EpochWarnings(h: seq<Action>): (n: nat) {
    if h == [] then 0
    else
      var last := h[|h| - 1];
      if !IsWarning(last) then EpochWarnings(h[..|h| - 1])
      else if last.event.value == 0 then 0
      else EpochWarnings(h[..|h| - 1]) + 1
  }

  lemma {:induction false} EpochMatch(h: seq<Action>)
    ensures Tally(Blank(0), h).books.warnings == EpochWarnings(h)
    decreases |h|
  {
    if h != [] {
      EpochMatch(h[..|h| - 1]);
      AtSteps(h, |h| - 1);
      assert h[..|h|] == h;
      WarningStep(At(h, |h| - 1), h[|h| - 1]);
    }
  }

  lemma {:induction false} WarningStep(l: Ledger, a: Action)
    ensures Observe(l, a).books.warnings
            == if !IsWarning(a) then l.books.warnings else if a.event.value == 0 then 0 else l.books.warnings + 1
  {
  }

  /** The bytes queued or in flight after a trace. */
  function QueuedAfter(h: seq<Action>): (n: int) {
    if h == [] then 0
    else
      var last := h[|h| - 1];
      var before := QueuedAfter(h[..|h| - 1]);
      if last.Accepted? then before + last.buffer.size
      else if last.Completed? || (last.Tried? && !last.taken) then before - last.buffer.size
      else before
  }

  lemma {:induction false} QueuedStep(h: seq<Action>, g: seq<Action>, a: Action, l: Ledger)
    requires h == g + [a] && Unsettled(l.books) == QueuedAfter(g)
    ensures Unsettled(Observe(l, a).books) == QueuedAfter(h)
  {
    assert h[..|h| - 1] == g && h[|h| - 1] == a;
  }

  lemma {:induction false} QueuedMatch(h: seq<Action>)
    ensures Unsettled(Tally(Blank(0), h).books) == QueuedAfter(h)
    decreases |h|
  {
    if h != [] {
      var i := |h| - 1;
      QueuedMatch(h[..i]);
      AtSteps(h, i);
      assert h[..i + 1] == h && h == h[..i] + [h[i]];
      QueuedStep(h, h[..i], h[i], At(h, i));
    }
  }

  /** The n-th warning of an epoch comes with at least 2^(n-1) MiB queued and reports the queue in kibibytes, and a zero
      warning ends an epoch that had one. */
  lemma {:induction false} WarningsDouble(h: seq<Action>, i: nat)
    requires Legal(h) && i < |h| && IsWarning(h[i])
    ensures h[i].event.value == 0 ==> EpochWarnings(h[..i]) > 0
    ensures h[i].event.value != 0 ==>
              QueuedAfter(h[..i]) >= 0x10_0000 * Bits.Pow2(EpochWarnings(h[..i])) && h[i].event.value == WarningValue(QueuedAfter(h[..i]))
  {
    PermittedAt(h, i);
    EpochMatch(h[..i]);
    QueuedMatch(h[..i]);
  }

  /** The most bytes that were queued since the last zero warning. */
  function EpochPeak(h: seq<Action>): (n: int) {
    if h == [] then 0
    else if IsWarning(h[|h| - 1]) && h[|h| - 1].event.value == 0 then QueuedAfter(h)
    else Larger(EpochPeak(h[..|h| - 1]), QueuedAfter(h))
  }

  function Larger(x: int, y: int): (m: int) { if x > y then x else y }

  /** One more action: the number of warnings, and the peak, which covers what is queued. */
  lemma {:induction false} EpochStep(h: seq<Action>, g: seq<Action>, a: Action)
    requires h == g + [a]
    ensures EpochWarnings(h) == if !IsWarning(a) then EpochWarnings(g) else if a.event.value == 0 then 0 else EpochWarnings(g) + 1
    ensures EpochPeak(h) >= QueuedAfter(h)
    ensures !(IsWarning(a) && a.event.value == 0) ==> EpochPeak(h) >= EpochPeak(g)
    ensures IsWarning(a) ==> QueuedAfter(h) == QueuedAfter(g)
  {
    assert h[..|h| - 1] == g && h[|h| - 1] == a;
  }

  /** An epoch of n warnings had 2^(n-1) MiB queued at some moment: there are at most 1 + log2(peak / 1 MiB) of them. */
  lemma {:induction false} EpochBound(h: seq<Action>)
    requires Legal(h) && EpochWarnings(h) > 0
    ensures 0x10_0000 * Bits.Pow2(EpochWarnings(h) - 1) <= EpochPeak(h)
    decreases |h|
  {
    var i := |h| - 1;
    var g := h[..i];
    assert h == g + [h[i]];
    EpochStep(h, g, h[i]);
    if IsWarning(h[i]) {
      WarningsDouble(h, i);
    } else {
      LegalBefore(h, i);
      EpochBound(g);
    }
  }

  // ---------- an entry and its trace ----------

  /** Bytes: what is queued is what the queues and the write in flight hold, nothing underflows, and a live
      TCP entry has written or still queues every byte it ever accepted. An idle live entry is not warned. */
  lemma {:induction false} ByteAccounting(e: Entry, l: Ledger)
    requires EntryOk(e, l)
    ensures e.out.queuedBytes == Sum(e.out.high) + Sum(e.out.low) + InflightSize(e.out) >= 0
    ensures !e.state.Closing? && !e.isUdp ==> e.out.writeBytes + e.out.queuedBytes == l.books.acceptedBytes
    ensures !e.state.Closing? && e.out.high == [] && e.out.low == [] && e.out.inflight.None? ==> e.out.warnSize == 0
    ensures e.out.warnSize == if l.books.warnings == 0 then 0 else 0x10_0000 * Bits.Pow2(l.books.warnings)
  {
  }
}
