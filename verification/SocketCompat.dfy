/** The skynet-facing send calls: what becomes of the caller's buffer for each kind of buffer, in terms of the
    runtime underneath. */
module SocketCompat {
  import opened Bytes
  import opened Options
  import opened SocketEntries
  import opened SocketMachine
  import opened MachineInvariants
  import Udp = UdpAddresses

  datatype Kind = Memory | Object | Raw

  /** Which callbacks of the object interface are set. */
  datatype Interface = Interface(buffer: bool, size: bool, free: bool)

  predicate CompleteInterface(i: Interface) { i.buffer && i.size && i.free }

  /** The buffer the caller passed, or the copy made of an object. */
  datatype Thing = Original | Copy

  /** What the runtime was given, and what was released, in order. */
  datatype Fate = Fate(given: Option<Thing>, released: seq<Thing>)

  /** release_sendbuffer. */
  function ReleaseOriginal(kind: Kind, i: Interface): (released: seq<Thing>) {
    if kind.Memory? || (kind.Object? && i.free) then [Original] else []
  }

  /** The destination of a send: a stream of one priority, or a datagram with its encoded address. */
  datatype Target = Stream(priority: Priority) | Datagram(address: seq<byte>)

  /** The runtime call behind both functions. */
  function Submit(m: Machine, id: int, to: Target, size: nat, ownership: Ownership, a: bool, b: bool): (r: (Machine, Code)) {
    match to
    case Stream(p) => ApiSend(m, id, p, None, size, ownership, a, b)
    case Datagram(address) => ApiSend(m, id, High, Some(address), size, ownership, a, b)
  }

  /** The runtime has taken one more buffer, at the end of its queue, and owns it. */
  ghost predicate TookOne(m: Machine, m': Machine, id: int, size: nat) {
    && m'.out.issued == m.out.issued + 1 && m'.table == m.table && m'.loop == m.loop && m'.out.released == m.out.released
    && |m'.mail.commands| == |m.mail.commands| + 1 && m'.mail.commands[..|m.mail.commands|] == m.mail.commands
    && var c := m'.mail.commands[|m.mail.commands|];
       c.id == id && CarriesBuffer(c.order) && c.order.buffer == Buffer(m.out.issued, size) && c.order.ownership.Owned?
  }

  lemma {:induction false} SubmitTakes(m: Machine, id: int, to: Target, size: nat, ownership: Ownership, a: bool, b: bool)
    ensures var r := Submit(m, id, to, size, ownership, a, b);
            if r.1 == Ok then TookOne(m, r.0, id, size) else r.0 == m || (ownership.Borrowed? && r.0 == CopyFreed(m))
  {
    match to
    case Stream(p) => SendForms(m, id, p, None, size, ownership, a, b);
    case Datagram(address) => SendForms(m, id, High, Some(address), size, ownership, a, b);
  }

  /** What becomes of a buffer of each kind once the runtime has been asked. */
  ghost predicate Disposed(kind: Kind, i: Interface, objectMemory: bool, ok: bool, fate: Fate) {
    match kind
    case Memory => fate == if ok then Fate(Some(Original), []) else Fate(None, [Original])
    case Raw => fate == Fate(None, [])
    case Object =>
      if !CompleteInterface(i) then !ok && fate == Fate(None, [])
      else fate == if ok then Fate(Some(Copy), [Original]) else Fate(None, if objectMemory then [Original, Copy] else [Original])
  }

  /** What becomes of the runtime: it has taken one buffer, or it is as before but for a copy of a RAW buffer made and freed. */
  ghost predicate Answered(m: Machine, m': Machine, kind: Kind, id: int, size: nat, ok: bool) {
    if ok then TookOne(m, m', id, size) else m' == m || (kind.Raw? && m' == CopyFreed(m))
  }

  /** send_buffer, and socket_server_udp_send once the address tag is known to be good. A MEMORY buffer is given to
      the runtime or released, never both and never neither; a RAW buffer stays with the caller; an object is
      copied and released once, and its copy is given or released, unless the object interface is incomplete. */
  method SendBuffer(m: Machine, kind: Kind, i: Interface, id: int, to: Target, size: nat, objectMemory: bool, a: bool, b: bool)
    returns (m': Machine, ok: bool, fate: Fate)
    ensures Answered(m, m', kind, id, size, ok) && Disposed(kind, i, objectMemory, ok, fate)
  {
    m', ok, fate := m, false, Fate(None, []);
    if kind.Object? {
      if !i.buffer || !i.size || !i.free { return; }
      fate := Fate(None, ReleaseOriginal(kind, i));
      if !objectMemory { return; }
      var r := Submit(m, id, to, size, Owned, a, b);
      SubmitTakes(m, id, to, size, Owned, a, b);
      m', ok := r.0, r.1 == Ok;
      fate := if ok then Fate(Some(Copy), fate.released) else Fate(None, fate.released + [Copy]);
      return;
    }
    var ownership := if kind.Memory? then Owned else Borrowed;
    var r := Submit(m, id, to, size, ownership, a, b);
    SubmitTakes(m, id, to, size, ownership, a, b);
    m', ok := r.0, r.1 == Ok;
    if ok {
      fate := Fate(if kind.Memory? then Some(Original) else None, []);
    } else if kind.Memory? {
      fate := Fate(None, ReleaseOriginal(kind, i));
    }
  }

  /** socket_server_udp_send: a bad address tag releases the buffer and reaches nothing. */
  method UdpSend(m: Machine, kind: Kind, i: Interface, id: int, address: seq<byte>, size: nat, objectMemory: bool, a: bool, b: bool)
    returns (m': Machine, ok: bool, fate: Fate)
    requires address != [] && |address| >= Udp.TaggedSize(address[0])
    ensures Answered(m, m', kind, id, size, ok) && (ok ==> Udp.TaggedSize(address[0]) != 0)
    ensures if Udp.TaggedSize(address[0]) == 0 then m' == m && fate == Fate(None, ReleaseOriginal(kind, i))
            else Disposed(kind, i, objectMemory, ok, fate)
  {
    var n := Udp.TaggedSize(address[0]);
    if n == 0 { return m, false, Fate(None, ReleaseOriginal(kind, i)); }
    m', ok, fate := SendBuffer(m, kind, i, id, Target.Datagram(address[..n]), size, objectMemory, a, b);
  }
}
