/** The select loop of the client against the I/O thread: a revision is read, the sockets are looked at one by
    one, and the caller sleeps only if the revision has not moved. The I/O thread first changes a connection and
    then, in a second critical section, moves the revision and wakes the sleeper. */
module ClientSelect {
  import opened Options
  import opened ClientStreams

  /** check_ready. */
  predicate ReadReady(s: Stream) { s.buffer != [] || s.status != 0 }

  /** Whether the I/O thread is between changing a connection and notify. */
  datatype IoThread = Quiet | Notifying

  /** Where the caller is: outside select, at the top of its loop, scanning with the revision read and the sockets
      found ready, asleep, or back with a result. */
  datatype Caller =
    | Outside | Looping | Scanning(revision: nat, at: nat, found: seq<nat>) | Asleep(revision: nat) | Returned(found: seq<nat>)

  datatype State = State(streams: seq<Stream>, watched: seq<nat>, io: IoThread, revision: nat, caller: Caller)

  datatype Step =
    | Callback(index: nat, op: Op)
    | Notify
    | CallerOp(index: nat, op: Op)
    | CallSelect(watched: seq<nat>)
    | ReadRevision
    | Look
    | EndScan(timeout: bool)
    | WakeUp

  /** Connections are looked at, read from and shut down by the I/O thread itself, so not while it is inside a
      read callback. A sleeper may wake for no reason or because its time is up. */
  predicate CanStep(s: State, step: Step) {
    match step
    case Callback(i, op) => s.io.Quiet? && i < |s.streams| && (op.Arrive? || op.Fail?) && Can(s.streams[i], op)
    case Notify => s.io.Notifying?
    case CallerOp(i, op) =>
      s.io.Quiet? && (s.caller.Outside? || s.caller.Returned?) && i < |s.streams| && (op.Recv? || op.ShutRead?) && Can(s.streams[i], op)
    case CallSelect(watched) => (s.caller.Outside? || s.caller.Returned?) && forall x :: x in watched ==> x < |s.streams|
    case ReadRevision => s.caller.Looping?
    case Look => s.io.Quiet? && s.caller.Scanning? && s.caller.at < |s.watched| && s.watched[s.caller.at] < |s.streams|
    case EndScan(_) => s.caller.Scanning? && s.caller.at == |s.watched|
    case WakeUp => s.caller.Asleep?
  }

  function Next(s: State, step: Step): (s': State)
    requires CanStep(s, step)
  {
    match step
    case Callback(i, op) => s.(streams := s.streams[i := Apply(s.streams[i], op)], io := Notifying)
    case Notify => s.(io := Quiet, revision := s.revision + 1, caller := if s.caller.Asleep? then Looping else s.caller)
    case CallerOp(i, op) => s.(streams := s.streams[i := Apply(s.streams[i], op)], caller := Outside)
    case CallSelect(watched) => s.(watched := watched, caller := Looping)
    case ReadRevision => s.(caller := Scanning(s.revision, 0, []))
    case Look =>
      var x := s.watched[s.caller.at];
      s.(caller := Scanning(s.caller.revision, s.caller.at + 1, s.caller.found + if ReadReady(s.streams[x]) then [x] else []))
    case EndScan(timeout) =>
      if s.caller.found != [] || timeout then s.(caller := Returned(s.caller.found))
      else if s.revision == s.caller.revision then s.(caller := Asleep(s.revision))
      else s.(caller := Looping)
    case WakeUp => s.(caller := Looping)
  }

  /** A watched socket is ready although the caller, who read revision r, has passed it by: then the wake-up is
      under way or has happened. */
  predicate Announced(s: State, r: nat) { s.io.Notifying? || s.revision > r }

  ghost predicate Inv(s: State) {
    && (!s.caller.Outside? ==> forall i :: 0 <= i < |s.watched| ==> s.watched[i] < |s.streams|)
    && match s.caller
       case Scanning(r, at, found) =>
         && r <= s.revision && at <= |s.watched|
         && (forall x :: x in found ==> x < |s.streams| && ReadReady(s.streams[x]))
         && (forall i :: 0 <= i < at && ReadReady(s.streams[s.watched[i]]) ==> s.watched[i] in found || Announced(s, r))
       case Asleep(r) =>
         && r == s.revision
         && forall i :: 0 <= i < |s.watched| && ReadReady(s.streams[s.watched[i]]) ==> s.io.Notifying?
       case Returned(found) => forall x :: x in found ==> x < |s.streams| && ReadReady(s.streams[x])
       case _ => true
  }

  lemma {:induction false} CallbackReadies(s: Stream, op: Op)
    requires Can(s, op) && (op.Arrive? || op.Fail?)
    ensures ReadReady(Apply(s, op))
  {
  }

  lemma {:induction false} CallbackKeeps(s: State, i: nat, op: Op)
    requires Inv(s) && CanStep(s, Callback(i, op))
    ensures Inv(Next(s, Callback(i, op)))
  {
    CallbackReadies(s.streams[i], op);
  }

  lemma {:induction false} LookKeeps(s: State)
    requires Inv(s) && CanStep(s, Look)
    ensures Inv(Next(s, Look))
  {
  }

  /** Every step keeps the invariant. */
  lemma {:induction false} NextKeeps(s: State, step: Step)
    requires Inv(s) && CanStep(s, step)
    ensures Inv(Next(s, step))
  {
    match step
    case Callback(i, op) => CallbackKeeps(s, i, op);
    case Look => LookKeeps(s);
    case CallSelect(watched) =>
      forall i | 0 <= i < |watched| ensures watched[i] < |s.streams| { assert watched[i] in watched; }
    case _ =>
  }

  ghost predicate Moves(s: State, step: Step, s': State) { CanStep(s, step) && s' == Next(s, step) }

  /** A run starts with established connections and the caller outside select. */
  ghost predicate Execution(run: seq<State>, steps: seq<Step>) {
    && |run| == |steps| + 1 && run[0].caller.Outside?
    && forall i :: 0 <= i < |steps| ==> Moves(run[i], steps[i], run[i + 1])
  }

  lemma {:induction false} Always(run: seq<State>, steps: seq<Step>, n: nat)
    requires Execution(run, steps) && n < |run|
    ensures Inv(run[n])
    decreases n
  {
    if n > 0 {
      Always(run, steps, n - 1);
      assert Moves(run[n - 1], steps[n - 1], run[n]);
      NextKeeps(run[n - 1], steps[n - 1]);
    }
  }

  /** No wake-up is lost: whenever the caller sleeps although a watched socket is ready, the I/O thread has its
      notify still to run, and that wakes the caller. */
  lemma {:induction false} NoLostWakeup(run: seq<State>, steps: seq<Step>, n: nat, x: nat)
    requires Execution(run, steps) && n < |run|
    requires run[n].caller.Asleep? && x in run[n].watched && x < |run[n].streams| && ReadReady(run[n].streams[x])
    ensures run[n].io.Notifying? && CanStep(run[n], Notify) && Next(run[n], Notify).caller.Looping?
  {
    Always(run, steps, n);
  }

  /** What select returns is ready, and stays so until the caller acts on it. */
  lemma {:induction false} ReturnsReady(run: seq<State>, steps: seq<Step>, n: nat, x: nat)
    requires Execution(run, steps) && n < |run| && run[n].caller.Returned? && x in run[n].caller.found
    ensures x < |run[n].streams| && ReadReady(run[n].streams[x])
  {
    Always(run, steps, n);
  }

  predicate OfCaller(step: Step) { step.CallerOp? || step.CallSelect? }

  lemma {:induction false} StaysReady(s: State, step: Step, x: nat)
    requires CanStep(s, step) && !step.CallerOp? && x < |s.streams| && ReadReady(s.streams[x])
    ensures x < |Next(s, step).streams| && ReadReady(Next(s, step).streams[x])
  {
  }

  /** While a caller scans: a socket that was ready when the scan began is found when it is looked at. */
  ghost predicate WillFind(s: State, x: nat) {
    && x in s.watched && x < |s.streams| && ReadReady(s.streams[x])
    && (s.caller.Scanning? ==> s.caller.at <= |s.watched| && forall i :: 0 <= i < s.caller.at && s.watched[i] == x ==> x in s.caller.found)
    && (s.caller.Asleep? ==> s.io.Notifying?) && !s.caller.Outside?
    && (s.caller.Returned? ==> x in s.caller.found || s.caller.found == [])
  }

  /** From the moment select starts its loop with a watched socket ready, it never goes to sleep for good: it
      returns that socket, unless its time is up first. */
  lemma {:induction false} ReadySocketIsFound(run: seq<State>, steps: seq<Step>, i: nat, j: nat, x: nat)
    requires Execution(run, steps) && i <= j < |run| && run[i].caller.Looping?
    requires x in run[i].watched && x < |run[i].streams| && ReadReady(run[i].streams[x])
    requires forall k :: i <= k < j ==> !OfCaller(steps[k]) && steps[k] != EndScan(true)
    ensures WillFind(run[j], x) && !run[j].caller.Asleep?
    ensures run[j].caller.Returned? ==> x in run[j].caller.found
    decreases j
  {
    if j > i {
      ReadySocketIsFound(run, steps, i, j - 1, x);
      assert Moves(run[j - 1], steps[j - 1], run[j]);
      Always(run, steps, j - 1);
      StaysReady(run[j - 1], steps[j - 1], x);
    }
  }

  // ---------- the scan ----------

  /** What check_ready looks at. */
  datatype Peer = Peer(stream: Stream, writeClosed: bool)

  predicate Ready(k: Peer, writing: bool) { if writing then !k.writeClosed else ReadReady(k.stream) }

  /** The ready sockets of a list, in order; `None` when it names a socket that does not exist. Negative entries
      are skipped. */
  function ReadyIn(ids: seq<int>, known: map<int, Peer>, writing: bool): (r: Option<seq<int>>) {
    if ids == [] then Some([])
    else
      var n := |ids| - 1;
      match ReadyIn(ids[..n], known, writing)
      case None => None
      case Some(before) =>
        if ids[n] < 0 then Some(before)
        else if ids[n] !in known then None
        else Some(before + if Ready(known[ids[n]], writing) then [ids[n]] else [])
  }

  /** Entries that name a socket. */
  function Sockets(ids: seq<int>): (n: nat) {
    if ids == [] then 0 else Sockets(ids[..|ids| - 1]) + if ids[|ids| - 1] < 0 then 0 else 1
  }

  predicate Unknown(ids: seq<int>, known: map<int, Peer>) { exists x :: x in ids && x >= 0 && x !in known }

  /** A list is refused exactly when it names an unknown socket; otherwise exactly its ready sockets are found. */
  lemma {:induction false} ReadyInExact(ids: seq<int>, known: map<int, Peer>, writing: bool)
    ensures ReadyIn(ids, known, writing).None? <==> Unknown(ids, known)
    ensures ReadyIn(ids, known, writing).Some? ==>
              forall x :: x in ReadyIn(ids, known, writing).value <==> x in ids && x >= 0 && x in known && Ready(known[x], writing)
  {
    if ids != [] {
      var n := |ids| - 1;
      ReadyInExact(ids[..n], known, writing);
      assert ids == ids[..n] + [ids[n]];
      assert ids[n] in ids;
    }
  }

  predicate NoSockets(ids: seq<int>) { forall k :: 0 <= k < |ids| ==> ids[k] < 0 }

  lemma {:induction false} SocketsExact(ids: seq<int>)
    ensures Sockets(ids) == 0 <==> NoSockets(ids)
  {
    if ids != [] {
      var n := |ids| - 1;
      SocketsExact(ids[..n]);
      if NoSockets(ids[..n]) && ids[n] < 0 {
        forall k | 0 <= k < |ids| ensures ids[k] < 0 { if k < n { assert ids[k] == ids[..n][k]; } }
      }
    }
  }

  lemma {:induction false} ReadyInStops(ids: seq<int>, known: map<int, Peer>, writing: bool, n: nat)
    requires n <= |ids| && ReadyIn(ids[..n], known, writing).None?
    ensures ReadyIn(ids, known, writing).None?
    decreases |ids| - n
  {
    if n < |ids| {
      assert ids[..n + 1][..n] == ids[..n];
      ReadyInStops(ids, known, writing, n + 1);
    } else {
      assert ids[..n] == ids;
    }
  }

  /** ready_table. */
  method ReadyTable(ids: seq<int>, known: map<int, Peer>, writing: bool) returns (ready: Option<seq<int>>, sockets: nat)
    ensures ready == ReadyIn(ids, known, writing) && (ready.Some? ==> sockets == Sockets(ids))
  {
    var found: seq<int> := [];
    sockets := 0;
    for n := 0 to |ids|
      invariant ReadyIn(ids[..n], known, writing) == Some(found) && sockets == Sockets(ids[..n])
    {
      assert ids[..n + 1][..n] == ids[..n] && found + [] == found;
      if ids[n] >= 0 {
        sockets := sockets + 1;
        if ids[n] !in known {
          ReadyInStops(ids, known, writing, n + 1);
          return None, sockets;
        }
        if Ready(known[ids[n]], writing) { found := found + [ids[n]]; }
      }
    }
    assert ids[..|ids|] == ids;
    ready := Some(found);
  }

  /** One round of the loop of select. */
  datatype Round = BadSocket | Found(readable: seq<int>, writable: seq<int>) | NothingOpen | Wait

  /** A round of select over the two optional lists. It fails exactly on an unknown socket, finds exactly the sockets that are
      ready, and otherwise waits, unless no entry names a socket and there is no timeout either. */
  method SelectRound(forReading: Option<seq<int>>, forWriting: Option<seq<int>>, known: map<int, Peer>, endless: bool) returns (round: Round)
    ensures round.BadSocket? <==> (forReading.Some? && Unknown(forReading.value, known)) || (forWriting.Some? && Unknown(forWriting.value, known))
    ensures round.Found? ==> round.readable != [] || round.writable != []
    ensures round.Found? ==> forall x :: x in round.readable <==> forReading.Some? && x in forReading.value && x >= 0 && x in known && Ready(known[x], false)
    ensures round.Found? ==> forall x :: x in round.writable <==> forWriting.Some? && x in forWriting.value && x >= 0 && x in known && Ready(known[x], true)
    ensures round.Wait? || round.NothingOpen? ==>
              && (forReading.Some? ==> forall x :: x in forReading.value && x >= 0 ==> x in known && !Ready(known[x], false))
              && (forWriting.Some? ==> forall x :: x in forWriting.value && x >= 0 ==> x in known && !Ready(known[x], true))
    ensures round.NothingOpen? <==>
              endless && (forReading.None? || NoSockets(forReading.value)) && (forWriting.None? || NoSockets(forWriting.value))
  {
    var r, w: Option<seq<int>>, n, k := Some([]), Some([]), 0, 0;
    if forReading.Some? {
      r, n := ReadyTable(forReading.value, known, false);
      ReadyInExact(forReading.value, known, false);
      SocketsExact(forReading.value);
    }
    if forWriting.Some? {
      w, k := ReadyTable(forWriting.value, known, true);
      ReadyInExact(forWriting.value, known, true);
      SocketsExact(forWriting.value);
    }
    if r.None? || w.None? { return BadSocket; }
    assert (r.value != [] ==> r.value[0] in r.value) && (w.value != [] ==> w.value[0] in w.value);
    if r.value != [] || w.value != [] { return Found(r.value, w.value); }
    round := if n + k == 0 && endless then NothingOpen else Wait;
  }
}
