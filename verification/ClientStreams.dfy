/** The receiving side of a client connection: a bounded buffer that stops reading when full and starts again when room
    has been made. */
module ClientStreams {
  import opened Bytes
  import opened Options

  const LIMIT: nat := 65536
  const UV_EAGAIN: int := -11
  const UV_EOF: int := -4095

  /** What the I/O thread keeps for reading, and whether libuv is reading. */
  datatype Stream = Stream(buffer: seq<byte>, status: int, paused: bool, reading: bool)

  const CONNECTED: Stream := Stream([], 0, false, true)

  datatype Op =
    | Arrive(bytes: seq<byte>)
    | Fail(status: int)
    | Recv(capacity: nat, restart: int)
    | ShutRead

  /** received with data: at most what allocate_read offered. */
  function Arrived(s: Stream, bytes: seq<byte>): (s': Stream) {
    var s1 := s.(buffer := s.buffer + bytes);
    if |s1.buffer| == LIMIT then s1.(reading := false, paused := true) else s1
  }

  function Failed(s: Stream, status: int): (s': Stream) { s.(status := status, reading := false) }

  /** receive_data: the result, and the bytes handed over. */
  function Received(s: Stream, capacity: nat, restart: int): (r: (Stream, int, seq<byte>)) {
    if s.buffer == [] then (s, if s.status != 0 then s.status else UV_EAGAIN, [])
    else
      var n := if capacity > |s.buffer| then |s.buffer| else capacity;
      var s1 := s.(buffer := s.buffer[n..]);
      var s2 := if s.paused && s.status == 0 then s1.(status := restart, reading := restart == 0, paused := false) else s1;
      (s2, 0, s.buffer[..n])
  }

  /** The reading half of start_shutdown. */
  function ReadShut(s: Stream): (s': Stream) { s.(status := UV_EOF, reading := false) }

  /** libuv calls back only while reading, with no more than was offered, and with a negative status at the end;
      recv is called with room for at least one byte. */
  predicate Can(s: Stream, op: Op) {
    match op
    case Arrive(bytes) => s.reading && 0 < |bytes| <= LIMIT - |s.buffer|
    case Fail(status) => s.reading && status < 0
    case Recv(capacity, restart) => capacity > 0 && restart <= 0
    case ShutRead => true
  }

  function Apply(s: Stream, op: Op): (s': Stream)
    requires Can(s, op)
  {
    match op
    case Arrive(bytes) => Arrived(s, bytes)
    case Fail(status) => Failed(s, status)
    case Recv(capacity, restart) => Received(s, capacity, restart).0
    case ShutRead => ReadShut(s)
  }

  /** Never above the limit; reading exactly while there is room and the stream has not ended. */
  predicate StreamOk(s: Stream) {
    && |s.buffer| <= LIMIT && (s.reading ==> |s.buffer| < LIMIT && s.status == 0 && !s.paused)
    && (!s.reading && s.status == 0 ==> s.paused && |s.buffer| == LIMIT)
  }

  ghost predicate Execution(run: seq<Stream>, ops: seq<Op>) {
    && |run| == |ops| + 1 && run[0] == CONNECTED
    && forall i :: 0 <= i < |ops| ==> Can(run[i], ops[i]) && run[i + 1] == Apply(run[i], ops[i])
  }

  /** The bytes an operation brings in, and the bytes it hands over. */
  function Incoming(op: Op): (bytes: seq<byte>) { if op.Arrive? then op.bytes else [] }

  function Outgoing(s: Stream, op: Op): (bytes: seq<byte>) {
    if op.Recv? then Received(s, op.capacity, op.restart).2 else []
  }

  /** All bytes libuv delivered in the first n operations. */
  function Delivered(ops: seq<Op>, n: nat): (bytes: seq<byte>)
    requires n <= |ops|
  {
    if n == 0 then [] else Delivered(ops, n - 1) + Incoming(ops[n - 1])
  }

  /** All bytes recv handed over in the first n operations. */
  function Taken(run: seq<Stream>, ops: seq<Op>, n: nat): (bytes: seq<byte>)
    requires n <= |ops| < |run|
  {
    if n == 0 then [] else Taken(run, ops, n - 1) + Outgoing(run[n - 1], ops[n - 1])
  }

  lemma {:induction false} ApplyKeeps(s: Stream, op: Op)
    requires StreamOk(s) && Can(s, op)
    ensures StreamOk(Apply(s, op))
  {
  }

  lemma {:induction false} AlwaysOk(run: seq<Stream>, ops: seq<Op>, n: nat)
    requires Execution(run, ops) && n <= |ops|
    ensures StreamOk(run[n])
    decreases n
  {
    if n > 0 {
      AlwaysOk(run, ops, n - 1);
      ApplyKeeps(run[n - 1], ops[n - 1]);
    }
  }

  lemma {:induction false} OpConserves(s: Stream, op: Op)
    requires Can(s, op)
    ensures Outgoing(s, op) + Apply(s, op).buffer == s.buffer + Incoming(op)
  {
  }

  lemma {:induction false} Regroup(taken: seq<byte>, before: seq<byte>, out: seq<byte>, after: seq<byte>, incoming: seq<byte>)
    requires out + after == before + incoming
    ensures taken + out + after == taken + before + incoming
  {
    assert taken + out + after == taken + (out + after);
  }

  /** In every run, what recv has handed over followed by the buffer is what libuv delivered, in order. */
  lemma {:induction false} NothingLost(run: seq<Stream>, ops: seq<Op>, n: nat)
    requires Execution(run, ops) && n <= |ops|
    ensures Taken(run, ops, n) + run[n].buffer == Delivered(ops, n)
    decreases n
  {
    if n > 0 {
      NothingLost(run, ops, n - 1);
      OpConserves(run[n - 1], ops[n - 1]);
      Regroup(Taken(run, ops, n - 1), run[n - 1].buffer, Outgoing(run[n - 1], ops[n - 1]), run[n].buffer, Incoming(ops[n - 1]));
    }
  }

  /** The end of the stream or an error is reported only when everything delivered has been handed over, and after
      it nothing is delivered any more. */
  lemma {:induction false} EndComesLast(run: seq<Stream>, ops: seq<Op>, n: nat, m: nat)
    requires Execution(run, ops) && n < |ops| && ops[n].Recv? && n <= m < |ops|
    requires Received(run[n], ops[n].capacity, ops[n].restart).1 !in {0, UV_EAGAIN}
    ensures Taken(run, ops, n) == Delivered(ops, n)
    ensures !ops[m].Arrive? && run[m].buffer == [] && run[m].status != 0
    decreases m
  {
    NothingLost(run, ops, n);
    assert Taken(run, ops, n) + [] == Taken(run, ops, n);
    AlwaysOk(run, ops, m);
    if m > n { EndComesLast(run, ops, n, m - 1); }
  }

  // ---------- the buffer in place ----------

  class Receiver {
    const received: array<byte>
    var size: nat
    var status: int
    var paused: bool
    var reading: bool

    ghost predicate Valid()
      reads this
    {
      received.Length == LIMIT && size <= LIMIT
    }

    ghost function View(): (s: Stream)
      requires Valid()
      reads this, received
    {
      Stream(received[..size], status, paused, reading)
    }

    constructor ()
      ensures Valid() && View() == CONNECTED && fresh(received)
    {
      received := new byte[LIMIT];
      size, status, paused, reading := 0, 0, false, true;
    }

    /** What allocate_read and received do: libuv fills the free end of the array. */
    method Arrive(bytes: seq<byte>)
      requires Valid() && StreamOk(View()) && Can(View(), Op.Arrive(bytes))
      modifies this, received
      ensures Valid() && StreamOk(View()) && View() == Arrived(old(View()), bytes)
    {
      for i := 0 to |bytes|
        modifies received
        invariant received[..size] == old(received[..size]) && forall j :: 0 <= j < i ==> received[size + j] == bytes[j]
      {
        received[size + i] := bytes[i];
      }
      size := size + |bytes|;
      assert received[..size] == old(received[..size]) + bytes;
      if size == LIMIT { reading, paused := false, true; }
    }

    method Fail(error: int)
      requires Valid() && StreamOk(View()) && Can(View(), Op.Fail(error))
      modifies this
      ensures Valid() && StreamOk(View()) && View() == Failed(old(View()), error)
    {
      status, reading := error, false;
    }

    method ShutRead()
      requires Valid() && StreamOk(View())
      modifies this
      ensures Valid() && StreamOk(View()) && View() == ReadShut(old(View()))
    {
      status, reading := UV_EOF, false;
    }

    /** receive_data: copies from the front and moves the rest down. */
    method Recv(capacity: nat, restart: int) returns (result: int, out: seq<byte>)
      requires Valid() && StreamOk(View()) && Can(View(), Op.Recv(capacity, restart))
      modifies this, received
      ensures Valid() && StreamOk(View()) && (View(), result, out) == Received(old(View()), capacity, restart)
    {
      if size == 0 { return if status != 0 then status else UV_EAGAIN, []; }
      var n := if capacity > size then size else capacity;
      ghost var was := received[..size];
      out := received[..n];
      assert out == was[..n];
      size := size - n;
      for i := 0 to size
        modifies received
        invariant forall j :: 0 <= j < i ==> received[j] == old(received[n + j])
        invariant forall j :: i <= j < LIMIT ==> received[j] == old(received[j])
      {
        received[i] := received[n + i];
      }
      assert received[..size] == was[n..];
      if paused && status == 0 { status, reading, paused := restart, restart == 0, false; }
      result := 0;
    }
  }
}
