/** The client's I/O thread: connect, close, send and shutdown requests of one blocked caller, the connections
    they work on, and the libuv handles of a connection. A step is one command or one libuv callback. */
module ClientRequests {
  import opened Options
  import opened Counting

  const INT64_MAX: nat := 0x7fff_ffff_ffff_ffff

  /** A libuv handle inside a connection: never initialised, open, passed to uv_close, or its close callback run. */
  datatype Handle = Absent | Open | Closing | Gone

  /** `handles` counts the handles whose close callback is still to come; `request` is the caller to answer when
      the last of them has gone. `connectPending` is libuv's. `tcpCloses` and `timerCloses` count the uv_close calls made
      on the two handles. */
  datatype Connection = Connection(
    id: nat, tcp: Handle, timer: Handle, handles: int, request: Option<nat>, timedOut: bool,
    writeClosed: bool, readClosed: bool, connectPending: bool, tcpCloses: nat, timerCloses: nat)

  /** The write or shutdown request libuv holds, with the caller to answer. */
  datatype Io = NoIo | WriteIo(request: nat) | ShutdownIo(request: nat)

  /** Requests are numbered as they are issued. `completed` and `refused` list those answered through complete()
      and those whose command returned an error; `ids` the identifiers handed to callers of connect. */
  datatype Client = Client(
    connections: seq<Connection>, nextId: nat, stopping: bool, io: Io, caller: Option<nat>,
    issued: nat, completed: seq<nat>, refused: seq<nat>, ids: seq<nat>)

  const INITIAL: Client := Client([], 0, false, NoIo, None, 0, [], [], [])

  datatype Step =
    | Connect(timeout: int, memory: bool, init: int, timerInit: int, timerStart: int, connect: int)
    | Close(id: nat)
    | Send(id: nat, size: nat, write: int)
    | Shutdown(id: nat, reading: bool, writing: bool, readResult: int, shutdown: int)
    | Stop
    | Connected(index: nat, result: int, readStart: int)
    | TimerFires(index: nat)
    | HandleClosed(index: nat, timer: bool)
    | IoDone(status: int)

  // ---------- pieces ----------

  /** uv_close on the tcp handle, on the timer. */
  function CloseTcp(k: Connection): (k': Connection) { k.(tcp := Closing, tcpCloses := k.tcpCloses + 1) }

  function CloseTimer(k: Connection): (k': Connection) { k.(timer := Closing, timerCloses := k.timerCloses + 1) }

  /** close_connection: every handle that is open is passed to uv_close. */
  function CloseConnection(k: Connection): (k': Connection) {
    var k1 := if k.tcp.Open? then CloseTcp(k) else k;
    if k1.timer.Open? then CloseTimer(k1) else k1
  }

  function Find(connections: seq<Connection>, id: nat): (i: Option<nat>)
    ensures i.Some? ==> i.value < |connections| && connections[i.value].id == id
    ensures i.None? ==> forall j :: 0 <= j < |connections| ==> connections[j].id != id
  {
    FindFrom(connections, id, 0)
  }

  function FindFrom(connections: seq<Connection>, id: nat, from: nat): (i: Option<nat>)
    requires from <= |connections| && forall j :: 0 <= j < from ==> connections[j].id != id
    ensures i.Some? ==> i.value < |connections| && connections[i.value].id == id
    ensures i.None? ==> forall j :: 0 <= j < |connections| ==> connections[j].id != id
    decreases |connections| - from
  {
    if from == |connections| then None
    else if connections[from].id == id then Some(from)
    else FindFrom(connections, id, from + 1)
  }

  function Without(ks: seq<Connection>, i: nat): (ks': seq<Connection>)
    requires i < |ks|
    ensures |ks'| == |ks| - 1 && forall j :: 0 <= j < |ks'| ==> ks'[j] == ks[if j < i then j else j + 1]
  {
    ks[..i] + ks[i + 1..]
  }

  /** A new request whose command returns an error. */
  function Refuse(c: Client): (c': Client) { c.(issued := c.issued + 1, refused := c.refused + [c.issued]) }

  /** A new request whose command returns 0 with the answer still to come. */
  function Wait(c: Client): (c': Client) { c.(issued := c.issued + 1, caller := Some(c.issued)) }

  /** A new request answered by its own command. */
  function Answer(c: Client): (c': Client) { c.(issued := c.issued + 1, completed := c.completed + [c.issued]) }

  /** complete() on a request issued earlier. */
  function Complete(c: Client, request: nat): (c': Client) { c.(caller := None, completed := c.completed + [request]) }

  // ---------- commands ----------

  /** The connection start_connect ends up with. */
  function Attempt(id: nat, request: nat, step: Step): (k: Connection)
    requires step.Connect?
  {
    var k := Connection(id, Open, Absent, 1, Some(request), false, false, false, false, 0, 0);
    if step.timeout == 0 then CloseConnection(k)
    else if step.timeout > 0 && step.timerInit != 0 then CloseConnection(k)
    else
      var k1 := if step.timeout > 0 then k.(timer := Open, handles := 2) else k;
      if step.timeout > 0 && step.timerStart != 0 then CloseConnection(k1)
      else if step.connect != 0 then CloseConnection(k1)
      else k1.(connectPending := true)
  }

  function StartConnect(c: Client, step: Step): (c': Client)
    requires step.Connect?
  {
    if c.nextId == INT64_MAX || !step.memory || step.init != 0 then Refuse(c)
    else Wait(c).(connections := [Attempt(c.nextId + 1, c.issued, step)] + c.connections)
  }

  function StartClose(c: Client, id: nat): (c': Client) {
    match Find(c.connections, id)
    case None => if 0 < id <= c.nextId then Answer(c) else Refuse(c)
    case Some(i) =>
      Wait(c).(connections := c.connections[i := CloseConnection(c.connections[i].(request := Some(c.issued)))])
  }

  function StartSend(c: Client, id: nat, size: nat, write: int): (c': Client) {
    match Find(c.connections, id)
    case None => Refuse(c)
    case Some(i) =>
      if c.connections[i].writeClosed then Refuse(c)
      else if size == 0 then Answer(c)
      else if write != 0 then Refuse(c)
      else Wait(c).(io := WriteIo(c.issued))
  }

  function StartShutdown(c: Client, id: nat, read: bool, write: bool, readResult: int, shutdown: int): (c': Client) {
    match Find(c.connections, id)
    case None => Refuse(c)
    case Some(i) =>
      var k := c.connections[i];
      if read && !k.readClosed && readResult != 0 then Refuse(c)
      else
        var k1 := k.(readClosed := k.readClosed || read);
        if write && !k.writeClosed then
          var c1 := c.(connections := c.connections[i := k1.(writeClosed := true)]);
          if shutdown != 0 then Refuse(c1) else Wait(c1).(io := ShutdownIo(c.issued))
        else Answer(c.(connections := c.connections[i := k1]))
  }

  function CloseAll(connections: seq<Connection>): (ks: seq<Connection>)
    ensures |ks| == |connections| && forall i :: 0 <= i < |ks| ==> ks[i] == CloseConnection(connections[i])
  {
    seq(|connections|, i requires 0 <= i < |connections| => CloseConnection(connections[i]))
  }

  // ---------- callbacks ----------

  /** connected: after a timeout it does nothing; a failure closes the connection and leaves the answer to the
      last close callback; success answers at once. */
  function ConnectEnds(c: Client, i: nat, result: int, read: int): (c': Client)
    requires i < |c.connections| && c.connections[i].request.Some?
  {
    var k := c.connections[i].(connectPending := false);
    if k.timedOut then c.(connections := c.connections[i := k])
    else
      var k1 := if k.timer.Open? then CloseTimer(k) else k;
      if result != 0 || read != 0 then c.(connections := c.connections[i := CloseConnection(k1)])
      else Complete(c.(connections := c.connections[i := k1.(request := None)], nextId := k.id, ids := c.ids + [k.id]), k.request.value)
  }

  function Timeout(c: Client, i: nat): (c': Client)
    requires i < |c.connections|
  {
    c.(connections := c.connections[i := CloseConnection(c.connections[i].(timedOut := true))])
  }

  /** connection_closed: the last handle of a connection unlinks it, frees it and answers its request. */
  function HandleEnds(c: Client, i: nat, timer: bool): (c': Client)
    requires i < |c.connections|
  {
    var k := if timer then c.connections[i].(timer := Gone, handles := c.connections[i].handles - 1)
             else c.connections[i].(tcp := Gone, handles := c.connections[i].handles - 1);
    if k.handles != 0 then c.(connections := c.connections[i := k])
    else
      var c1 := c.(connections := Without(c.connections, i));
      if k.request.Some? then Complete(c1, k.request.value) else c1
  }

  // ---------- steps ----------

  predicate IsCommand(step: Step) { step.Connect? || step.Close? || step.Send? || step.Shutdown? }

  predicate IsCallback(step: Step) { step.Connected? || step.TimerFires? || step.HandleClosed? || step.IoDone? }

  /** When a step can happen: commands come from one caller, who is not waiting; callbacks when libuv may run
      them. A connect callback precedes the close callback of its handle, and a closed timer does not fire. */
  predicate CanStep(c: Client, step: Step) {
    match step
    case Connected(i, _, _) => i < |c.connections| && c.connections[i].connectPending
    case TimerFires(i) => i < |c.connections| && c.connections[i].timer.Open?
    case HandleClosed(i, timer) =>
      i < |c.connections|
      && if timer then c.connections[i].timer.Closing? else c.connections[i].tcp.Closing? && !c.connections[i].connectPending
    case IoDone(_) => !c.io.NoIo?
    case _ => c.caller.None? && !c.stopping
  }

  /** The callbacks that read the request of their connection find one. */
  predicate Safe(c: Client, step: Step) {
    match step
    case Connected(i, _, _) => i < |c.connections| && c.connections[i].request.Some?
    case TimerFires(i) => i < |c.connections| && c.connections[i].request.Some?
    case _ => true
  }

  function Next(c: Client, step: Step): (c': Client)
    requires CanStep(c, step) && Safe(c, step)
  {
    match step
    case Connect(_, _, _, _, _, _) => StartConnect(c, step)
    case Close(id) => StartClose(c, id)
    case Send(id, size, write) => StartSend(c, id, size, write)
    case Shutdown(id, read, write, readResult, shutdown) => StartShutdown(c, id, read, write, readResult, shutdown)
    case Stop => c.(stopping := true, connections := CloseAll(c.connections))
    case Connected(i, result, read) => ConnectEnds(c, i, result, read)
    case TimerFires(i) => Timeout(c, i)
    case HandleClosed(i, timer) => HandleEnds(c, i, timer)
    case IoDone(_) => Complete(c, c.io.request).(io := NoIo)
  }

  // ---------- the invariant ----------

  function Live(h: Handle): (n: nat) { if h.Open? || h.Closing? then 1 else 0 }

  /** One connection: the handle count is right, a request is attached exactly while an answer is on its way, and
      the timer runs only while connecting. */
  predicate ConnectionOk(k: Connection, nextId: nat, stopping: bool) {
    && k.handles == Live(k.tcp) + Live(k.timer) && k.handles > 0 && !k.tcp.Absent?
    && (k.connectPending ==> k.request.Some? && (k.timedOut ==> k.tcp.Closing?) && (!k.timedOut ==> k.tcp.Open?))
    && (k.timer.Open? ==> k.connectPending && !k.timedOut)
    && (k.request.Some? && !k.connectPending ==> !k.tcp.Open?)
    && (k.request.None? ==> if stopping then !k.tcp.Open? else k.tcp.Open?)
    && 0 < k.id && (k.id <= nextId || (k.id == nextId + 1 && k.request.Some?))
    && (k.connectPending ==> k.id == nextId + 1) && ClosedOnce(k)
  }

  /** A handle has been passed to uv_close once if it is closing or gone, and not at all before. */
  predicate ClosedOnce(k: Connection) {
    && k.tcpCloses == (if k.tcp.Closing? || k.tcp.Gone? then 1 else 0)
    && k.timerCloses == (if k.timer.Closing? || k.timer.Gone? then 1 else 0)
  }

  ghost predicate AllOk(c: Client) {
    && (forall i :: 0 <= i < |c.connections| ==> ConnectionOk(c.connections[i], c.nextId, c.stopping))
    && forall i, j :: 0 <= i < j < |c.connections| ==> c.connections[i].id != c.connections[j].id
  }

  /** Exactly one place answers the waiting caller, and no place refers to a caller that is not waiting. */
  ghost predicate OneAnswer(c: Client) {
    && (!c.io.NoIo? ==> c.caller == Some(c.io.request))
    && (forall i :: 0 <= i < |c.connections| && c.connections[i].request.Some? ==> c.connections[i].request == c.caller && c.io.NoIo?)
    && (forall i, j :: 0 <= i < j < |c.connections| ==> c.connections[i].request.None? || c.connections[j].request.None?)
    && (c.caller.Some? && c.io.NoIo? ==> exists i :: 0 <= i < |c.connections| && c.connections[i].request.Some?)
    && (c.stopping ==> c.caller.None?)
  }

  lemma {:induction false} CountAppend(s: seq<nat>, x: nat, t: nat)
    ensures CountOf(s + [x], t) == CountOf(s, t) + (if x == t then 1 else 0)
  {
    CountConcat(s, [x], t);
    CountOne(x, t);
  }

  /** Request t has been answered once, refused once, or is waiting; before it is issued, none of these. */
  predicate Settled(c: Client, t: nat) {
    CountOf(c.completed, t) + CountOf(c.refused, t) + (if c.caller == Some(t) then 1 else 0) == (if t < c.issued then 1 else 0)
  }

  predicate Rising(ids: seq<nat>, nextId: nat) {
    && (forall i, j :: 0 <= i < j < |ids| ==> ids[i] < ids[j])
    && (forall i :: 0 <= i < |ids| ==> 0 < ids[i] <= nextId)
  }

  ghost predicate Inv(c: Client, t: nat) {
    AllOk(c) && OneAnswer(c) && Settled(c, t) && Rising(c.ids, c.nextId)
  }

  /** No enabled callback finds its connection without the request it needs. */
  lemma {:induction false} SafeAlways(c: Client, step: Step, t: nat)
    requires Inv(c, t) && CanStep(c, step)
    ensures Safe(c, step)
  {
  }

  lemma {:induction false} ConnectKeeps(c: Client, step: Step, t: nat)
    requires Inv(c, t) && CanStep(c, step) && step.Connect?
    ensures Inv(StartConnect(c, step), t)
  {
    var c' := StartConnect(c, step);
    CountAppend(c.refused, c.issued, t);
    if c'.caller.Some? { assert c'.connections[0].request.Some?; }
  }

  lemma {:induction false} RefuseKeeps(c: Client, t: nat)
    requires Inv(c, t) && c.caller.None?
    ensures Inv(Refuse(c), t)
  {
    CountAppend(c.refused, c.issued, t);
  }

  lemma {:induction false} AnswerKeeps(c: Client, t: nat)
    requires Inv(c, t) && c.caller.None?
    ensures Inv(Answer(c), t)
  {
    CountAppend(c.completed, c.issued, t);
  }

  lemma {:induction false} WaitIoKeeps(c: Client, io: Io, t: nat)
    requires Inv(c, t) && c.caller.None? && !c.stopping && !io.NoIo? && io.request == c.issued
    ensures Inv(Wait(c).(io := io), t)
  {
  }

  /** One connection is replaced by another with the same identifier and request. */
  lemma {:induction false} ReplaceKeeps(c: Client, i: nat, k: Connection, t: nat)
    requires Inv(c, t) && i < |c.connections| && ConnectionOk(k, c.nextId, c.stopping)
    requires k.id == c.connections[i].id && k.request == c.connections[i].request
    ensures Inv(c.(connections := c.connections[i := k]), t)
  {
    StillAnswered(c, c.(connections := c.connections[i := k]), i);
  }

  lemma {:induction false} CloseOneKeeps(c: Client, i: nat, t: nat)
    requires Inv(c, t) && c.caller.None? && !c.stopping && i < |c.connections|
    ensures Inv(Wait(c).(connections := c.connections[i := CloseConnection(c.connections[i].(request := Some(c.issued)))]), t)
  {
    var c' := Wait(c).(connections := c.connections[i := CloseConnection(c.connections[i].(request := Some(c.issued)))]);
    assert c'.connections[i].request.Some?;
    assert ConnectionOk(c.connections[i], c.nextId, c.stopping);
  }

  lemma {:induction false} CloseKeeps(c: Client, id: nat, t: nat)
    requires Inv(c, t) && c.caller.None? && !c.stopping
    ensures Inv(StartClose(c, id), t)
  {
    match Find(c.connections, id)
    case None => AnswerKeeps(c, t); RefuseKeeps(c, t);
    case Some(i) => CloseOneKeeps(c, i, t);
  }

  lemma {:induction false} SendKeeps(c: Client, id: nat, size: nat, write: int, t: nat)
    requires Inv(c, t) && c.caller.None? && !c.stopping
    ensures Inv(StartSend(c, id, size, write), t)
  {
    AnswerKeeps(c, t);
    RefuseKeeps(c, t);
    WaitIoKeeps(c, WriteIo(c.issued), t);
  }

  lemma {:induction false} ShutdownKeeps(c: Client, id: nat, read: bool, write: bool, a: int, b: int, t: nat)
    requires Inv(c, t) && c.caller.None? && !c.stopping
    ensures Inv(StartShutdown(c, id, read, write, a, b), t)
  {
    match Find(c.connections, id)
    case None => RefuseKeeps(c, t);
    case Some(i) => ShutOneKeeps(c, i, id, read, write, a, b, t);
  }

  lemma {:induction false} ShutOneKeeps(c: Client, i: nat, id: nat, read: bool, write: bool, a: int, b: int, t: nat)
    requires Inv(c, t) && c.caller.None? && !c.stopping && Find(c.connections, id) == Some(i)
    ensures Inv(StartShutdown(c, id, read, write, a, b), t)
  {
    var k := c.connections[i];
    assert ConnectionOk(k, c.nextId, c.stopping);
    if read && !k.readClosed && a != 0 {
      RefuseKeeps(c, t);
    } else if write && !k.writeClosed {
      var k1 := k.(readClosed := k.readClosed || read, writeClosed := true);
      var c1 := c.(connections := c.connections[i := k1]);
      ReplaceKeeps(c, i, k1, t);
      if b != 0 { RefuseKeeps(c1, t); } else { WaitIoKeeps(c1, ShutdownIo(c.issued), t); }
    } else {
      var k1 := k.(readClosed := k.readClosed || read);
      ReplaceKeeps(c, i, k1, t);
      AnswerKeeps(c.(connections := c.connections[i := k1]), t);
    }
  }

  lemma {:induction false} EstablishedKeeps(c: Client, i: nat, k: Connection, t: nat)
    requires Inv(c, t) && i < |c.connections| && c.connections[i].request.Some? && c.connections[i].connectPending
    requires k.request.None? && k.id == c.connections[i].id && ConnectionOk(k, k.id, c.stopping)
    ensures Inv(Complete(c.(connections := c.connections[i := k], nextId := k.id, ids := c.ids + [k.id]), c.connections[i].request.value), t)
  {
    assert ConnectionOk(c.connections[i], c.nextId, c.stopping);
    CountAppend(c.completed, c.connections[i].request.value, t);
    forall j | 0 <= j < |c.connections| && j != i ensures ConnectionOk(c.connections[j], k.id, c.stopping) {
      assert ConnectionOk(c.connections[j], c.nextId, c.stopping);
    }
  }

  lemma {:induction false} ConnectEndsKeeps(c: Client, i: nat, result: int, read: int, t: nat)
    requires Inv(c, t) && CanStep(c, Connected(i, result, read)) && c.connections[i].request.Some?
    ensures Inv(ConnectEnds(c, i, result, read), t)
  {
    assert ConnectionOk(c.connections[i], c.nextId, c.stopping);
    var k := c.connections[i].(connectPending := false);
    if k.timedOut {
      ReplaceKeeps(c, i, k, t);
    } else {
      var k1 := if k.timer.Open? then CloseTimer(k) else k;
      if result != 0 || read != 0 {
        ReplaceKeeps(c, i, CloseConnection(k1), t);
      } else {
        EstablishedKeeps(c, i, k1.(request := None), t);
      }
    }
  }

  lemma {:induction false} TimeoutKeeps(c: Client, i: nat, t: nat)
    requires Inv(c, t) && CanStep(c, TimerFires(i))
    ensures Inv(Timeout(c, i), t)
  {
    assert ConnectionOk(c.connections[i], c.nextId, c.stopping);
    ReplaceKeeps(c, i, CloseConnection(c.connections[i].(timedOut := true)), t);
  }

  lemma {:induction false} HandleEndsKeeps(c: Client, i: nat, timer: bool, t: nat)
    requires Inv(c, t) && CanStep(c, HandleClosed(i, timer))
    ensures Inv(HandleEnds(c, i, timer), t)
  {
    var c' := HandleEnds(c, i, timer);
    var k := c.connections[i];
    if |c'.connections| == |c.connections| {
      StillAnswered(c, c', i);
    } else {
      RemovedOk(c, c', i);
      RemovedAnswer(c, c', i);
      if k.request.Some? { CountAppend(c.completed, k.request.value, t); }
    }
  }

  /** One connection changed without losing its request. */
  lemma {:induction false} StillAnswered(c: Client, c': Client, i: nat)
    requires OneAnswer(c) && i < |c.connections| == |c'.connections|
    requires c' == c.(connections := c.connections[i := c'.connections[i]]) && c'.connections[i].request == c.connections[i].request
    ensures OneAnswer(c')
  {
    if c.caller.Some? && c.io.NoIo? {
      var j :| 0 <= j < |c.connections| && c.connections[j].request.Some?;
      assert c'.connections[j].request.Some?;
    }
  }

  lemma {:induction false} RemovedOk(c: Client, c': Client, i: nat)
    requires AllOk(c) && i < |c.connections|
    requires c'.connections == Without(c.connections, i) && c'.nextId == c.nextId && c'.stopping == c.stopping
    ensures AllOk(c')
  {
  }

  lemma {:induction false} RemovedAnswer(c: Client, c': Client, i: nat)
    requires OneAnswer(c) && i < |c.connections|
    requires c'.connections == Without(c.connections, i) && c'.stopping == c.stopping
    requires c'.io == c.io && c'.caller == if c.connections[i].request.Some? then None else c.caller
    ensures OneAnswer(c')
  {
    if c'.caller.Some? && c.io.NoIo? {
      var j :| 0 <= j < |c.connections| && c.connections[j].request.Some?;
      assert c'.connections[if j < i then j else j - 1] == c.connections[j];
    }
  }

  lemma {:induction false} StopKeeps(c: Client, t: nat)
    requires Inv(c, t) && CanStep(c, Stop)
    ensures Inv(Next(c, Stop), t)
  {
  }

  /** Every step keeps the invariant. */
  lemma {:induction false} NextKeeps(c: Client, step: Step, t: nat)
    requires Inv(c, t) && CanStep(c, step) && Safe(c, step)
    ensures Inv(Next(c, step), t)
  {
    match step
    case Connect(_, _, _, _, _, _) => ConnectKeeps(c, step, t);
    case Close(id) => CloseKeeps(c, id, t);
    case Send(id, size, write) => SendKeeps(c, id, size, write, t);
    case Shutdown(id, read, write, a, b) => ShutdownKeeps(c, id, read, write, a, b, t);
    case Stop => StopKeeps(c, t);
    case Connected(i, result, read) => ConnectEndsKeeps(c, i, result, read, t);
    case TimerFires(i) => TimeoutKeeps(c, i, t);
    case HandleClosed(i, timer) => HandleEndsKeeps(c, i, timer, t);
    case IoDone(_) => CountAppend(c.completed, c.io.request, t);
  }

  // ---------- runs ----------

  ghost predicate Moves(c: Client, step: Step, c': Client) { CanStep(c, step) && Safe(c, step) && c' == Next(c, step) }

  ghost predicate Execution(run: seq<Client>, steps: seq<Step>) {
    && |run| == |steps| + 1 && run[0] == INITIAL
    && forall i :: 0 <= i < |steps| ==> Moves(run[i], steps[i], run[i + 1])
  }

  lemma {:induction false} Always(run: seq<Client>, steps: seq<Step>, i: nat, t: nat)
    requires Execution(run, steps) && i < |run|
    ensures Inv(run[i], t)
    decreases i
  {
    if i > 0 {
      Always(run, steps, i - 1, t);
      assert Moves(run[i - 1], steps[i - 1], run[i]);
      NextKeeps(run[i - 1], steps[i - 1], t);
    }
  }

  /** Every request issued is answered once, refused once, or waiting: a command that returns 0 is completed
      exactly once, one that returns an error never is; and no run gets stuck on a missing request. */
  lemma {:induction false} AnsweredOnce(run: seq<Client>, steps: seq<Step>, i: nat, t: nat)
    requires Execution(run, steps) && i < |run|
    ensures Settled(run[i], t)
    ensures CountOf(run[i].completed, t) + CountOf(run[i].refused, t) <= 1
    ensures forall step :: CanStep(run[i], step) ==> Safe(run[i], step)
  {
    Always(run, steps, i, t);
    forall step | CanStep(run[i], step) ensures Safe(run[i], step) { SafeAlways(run[i], step, t); }
  }

  /** Which way a new request goes is what its command returned: refused with an error, and otherwise completed at
      once or waited for. */
  lemma {:induction false} CommandOutcome(c: Client, step: Step)
    requires CanStep(c, step) && IsCommand(step)
    ensures var c' := Next(c, step);
            && c'.issued == c.issued + 1
            && (c' .refused == c.refused + [c.issued] <==> c'.completed == c.completed && c'.caller.None?)
            && (c'.refused == c.refused + [c.issued] || c'.completed == c.completed + [c.issued] || c'.caller == Some(c.issued))
  {
  }

  predicate Listed(connections: seq<Connection>, id: nat) { exists j :: 0 <= j < |connections| && connections[j].id == id }

  /** A connection leaves the list only in the close callback of its last handle, and then all its handles are gone. */
  lemma {:induction false} FreedByLastHandle(c: Client, step: Step, t: nat, i: nat)
    requires Inv(c, t) && CanStep(c, step) && Safe(c, step) && i < |c.connections|
    ensures var k := c.connections[i];
            !Listed(Next(c, step).connections, k.id) <==> step.HandleClosed? && step.index == i && k.handles == 1
  {
    var c' := Next(c, step);
    var k := c.connections[i];
    if step.HandleClosed? && |c'.connections| < |c.connections| {
      LeavesOne(c, c', step.index, i);
    } else {
      StaysListed(c, step, i);
    }
  }

  lemma {:induction false} LeavesOne(c: Client, c': Client, n: nat, i: nat)
    requires AllOk(c) && i < |c.connections| && n < |c.connections| && c'.connections == Without(c.connections, n)
    ensures !Listed(c'.connections, c.connections[i].id) <==> n == i
  {
    if n < i { assert c'.connections[i - 1].id == c.connections[i].id; }
    if i < n { assert c'.connections[i].id == c.connections[i].id; }
  }

  lemma {:induction false} StaysListed(c: Client, step: Step, i: nat)
    requires CanStep(c, step) && Safe(c, step) && i < |c.connections|
    requires step.HandleClosed? ==> |Next(c, step).connections| == |c.connections|
    ensures Listed(Next(c, step).connections, c.connections[i].id)
  {
    var c' := Next(c, step);
    if |c'.connections| > |c.connections| { assert c'.connections[i + 1].id == c.connections[i].id; }
    else { assert c'.connections[i].id == c.connections[i].id; }
  }

  /** In every run uv_close is called on a handle at most once, and exactly once by the time its connection is freed: both
      handles of a freed connection are gone, or the timer was never initialised, and each was closed once. */
  lemma {:induction false} HandlesClosedOnce(run: seq<Client>, steps: seq<Step>, n: nat, i: nat)
    requires Execution(run, steps) && n < |steps| && i < |run[n].connections|
    ensures ClosedOnce(run[n].connections[i])
    ensures !Listed(run[n + 1].connections, run[n].connections[i].id) ==>
              && steps[n].HandleClosed? && steps[n].index == i
              && var k := run[n].connections[i];
                 && k.tcpCloses == 1 && (k.timer.Absent? || k.timerCloses == 1)
                 && (if steps[n].timer then k.tcp.Gone? else k.timer.Gone? || k.timer.Absent?)
  {
    Always(run, steps, n, 0);
    assert Moves(run[n], steps[n], run[n + 1]);
    assert ConnectionOk(run[n].connections[i], run[n].nextId, run[n].stopping);
    FreedByLastHandle(run[n], steps[n], 0, i);
  }

  /** Identifiers returned by connect strictly increase, and no two listed connections share one. */
  lemma {:induction false} IdsIncrease(run: seq<Client>, steps: seq<Step>, i: nat)
    requires Execution(run, steps) && i < |run|
    ensures forall a, b :: 0 <= a < b < |run[i].ids| ==> run[i].ids[a] < run[i].ids[b]
    ensures forall a, b :: 0 <= a < b < |run[i].connections| ==> run[i].connections[a].id != run[i].connections[b].id
  {
    Always(run, steps, i, 0);
  }

  // ---------- progress ----------

  function Weight(h: Handle): (n: nat) { match h case Open => 2 case Closing => 1 case _ => 0 }

  function Due(k: Connection): (n: nat) { Weight(k.tcp) + Weight(k.timer) + if k.connectPending then 1 else 0 }

  function TotalDue(ks: seq<Connection>): (n: nat) { if ks == [] then 0 else Due(ks[0]) + TotalDue(ks[1..]) }

  /** What libuv can still call back about. */
  function Outstanding(c: Client): (n: nat) { TotalDue(c.connections) + if c.io.NoIo? then 0 else 1 }

  lemma {:induction false} DueUpdate(ks: seq<Connection>, i: nat, k: Connection)
    requires i < |ks|
    ensures TotalDue(ks[i := k]) + Due(ks[i]) == TotalDue(ks) + Due(k)
  {
    if i > 0 {
      DueUpdate(ks[1..], i - 1, k);
      assert ks[i := k][1..] == ks[1..][i - 1 := k];
    } else {
      assert ks[i := k][1..] == ks[1..];
    }
  }

  lemma {:induction false} DueRemove(ks: seq<Connection>, i: nat)
    requires i < |ks|
    ensures TotalDue(Without(ks, i)) + Due(ks[i]) == TotalDue(ks)
  {
    if i > 0 {
      DueRemove(ks[1..], i - 1);
      assert Without(ks, i)[1..] == Without(ks[1..], i - 1);
    } else {
      assert Without(ks, 0) == ks[1..];
    }
  }

  lemma {:induction false} CallbackDecreases(c: Client, step: Step, t: nat)
    requires Inv(c, t) && CanStep(c, step) && Safe(c, step) && IsCallback(step)
    ensures Outstanding(Next(c, step)) < Outstanding(c)
  {
    match step
    case Connected(i, result, read) => ConnectDecreases(c, i, result, read);
    case TimerFires(i) => DueUpdate(c.connections, i, Timeout(c, i).connections[i]);
    case HandleClosed(i, timer) => HandleDecreases(c, i, timer, t);
    case IoDone(_) =>
  }

  /** What the connect callback leaves of its connection. */
  function Afterwards(k0: Connection, result: int, read: int): (k': Connection) {
    var k := k0.(connectPending := false);
    if k.timedOut then k
    else
      var k1 := if k.timer.Open? then CloseTimer(k) else k;
      if result != 0 || read != 0 then CloseConnection(k1) else k1.(request := None)
  }

  lemma {:induction false} ConnectLeaves(c: Client, i: nat, result: int, read: int)
    requires i < |c.connections| && c.connections[i].request.Some?
    ensures var c' := ConnectEnds(c, i, result, read);
            c'.connections == c.connections[i := Afterwards(c.connections[i], result, read)] && c'.io == c.io
  {
  }

  lemma {:induction false} ConnectLightens(k: Connection, result: int, read: int)
    requires k.connectPending
    ensures Due(Afterwards(k, result, read)) < Due(k)
  {
  }

  lemma {:induction false} ConnectDecreases(c: Client, i: nat, result: int, read: int)
    requires CanStep(c, Connected(i, result, read)) && c.connections[i].request.Some?
    ensures Outstanding(ConnectEnds(c, i, result, read)) < Outstanding(c)
  {
    ConnectLeaves(c, i, result, read);
    ConnectLightens(c.connections[i], result, read);
    DueUpdate(c.connections, i, Afterwards(c.connections[i], result, read));
  }

  lemma {:induction false} HandleDecreases(c: Client, i: nat, timer: bool, t: nat)
    requires Inv(c, t) && CanStep(c, HandleClosed(i, timer))
    ensures Outstanding(HandleEnds(c, i, timer)) < Outstanding(c)
  {
    assert ConnectionOk(c.connections[i], c.nextId, c.stopping);
    if c.connections[i].handles == 1 { DueRemove(c.connections, i); }
    else { DueUpdate(c.connections, i, HandleEnds(c, i, timer).connections[i]); }
  }

  lemma {:induction false} CallerHasCallback(c: Client, t: nat) returns (step: Step)
    requires Inv(c, t) && c.caller.Some?
    ensures IsCallback(step) && CanStep(c, step)
  {
    if !c.io.NoIo? { return IoDone(0); }
    var i :| 0 <= i < |c.connections| && c.connections[i].request.Some?;
    step := if c.connections[i].connectPending then Connected(i, 0, 0) else HandleClosed(i, !c.connections[i].tcp.Closing?);
  }

  /** A caller is never left waiting: while it waits a callback is due, every callback uses up some of what libuv
      still owes, and so at most Outstanding callbacks later the request is answered. */
  lemma {:induction false} CallersAreAnswered(c: Client, t: nat)
    requires Inv(c, t)
    ensures c.caller.Some? ==> Outstanding(c) > 0 && exists step :: IsCallback(step) && CanStep(c, step) && Safe(c, step)
    ensures forall step :: CanStep(c, step) && Safe(c, step) && IsCallback(step) ==> Outstanding(Next(c, step)) < Outstanding(c)
  {
    forall step | CanStep(c, step) && Safe(c, step) && IsCallback(step) ensures Outstanding(Next(c, step)) < Outstanding(c) {
      CallbackDecreases(c, step, t);
    }
    if c.caller.Some? {
      var step := CallerHasCallback(c, t);
      SafeAlways(c, step, t);
    }
  }
}
