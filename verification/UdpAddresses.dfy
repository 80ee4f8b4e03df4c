/** The address trailer of a datagram: how the runtime appends the sender to a received payload,
    how the compatibility layer finds it again, and how a reply address is decoded. */
module UdpAddresses {
  import opened Bytes
  import opened Options

  /** A socket address with its port and IP in network order. */
  datatype SockAddr =
    | Inet(port: seq<byte>, ip: seq<byte>)
    | Inet6(port: seq<byte>, ip: seq<byte>, flow: nat, scope: nat)
  {
    predicate WellFormed() {
      |port| == 2 && |ip| == (if Inet? then 4 else 16)
    }
  }

  function AddressSize(address: SockAddr): (n: nat) {
    if address.Inet? then 7 else 19
  }

  /** The trailer: a family tag, the port, the IP. */
  function Encode(address: SockAddr): (bytes: seq<byte>)
    requires address.WellFormed()
    ensures |bytes| == AddressSize(address)
  {
    var tag: byte := if address.Inet? then 1 else 2;
    [tag] + address.port + address.ip
  }

  /** The block handed over by udp_received: the payload with its sender behind it. */
  function Received(payload: seq<byte>, address: SockAddr): (block: seq<byte>)
    requires address.WellFormed()
    ensures |block| == |payload| + AddressSize(address)
  {
    payload + Encode(address)
  }

  /** decode_udp_address: both the length and the tag have to agree. */
  function Decode(bytes: seq<byte>): (address: Option<SockAddr>)
    ensures address.Some? ==> address.value.WellFormed()
  {
    if |bytes| == 7 && bytes[0] == 1 then Some(Inet(bytes[1..3], bytes[3..7]))
    else if |bytes| == 19 && bytes[0] == 2 then Some(Inet6(bytes[1..3], bytes[3..19], 0, 0))
    else None
  }

  /** The length a tag promises; zero for an unknown tag. */
  function TaggedSize(tag: byte): (n: nat) {
    if tag == 1 then 7 else if tag == 2 then 19 else 0
  }

  /** socket_server_udp_address: the trailer of a message whose payload is `ud` bytes long. */
  function Trailer(block: seq<byte>, ud: int): (bytes: Option<seq<byte>>)
    requires ud < |block|
  {
    if ud < 0 then None
    else
      var n := TaggedSize(block[ud]);
      if n == 0 || ud + n > |block| then None else Some(block[ud .. ud + n])
  }

  /** The sender of a datagram is found behind the payload, whatever the payload holds, and decodes
      to its family, port and IP. The IPv6 flow label and scope do not travel: the whole address
      comes back exactly when they are zero. */
  lemma SenderRoundTrip(payload: seq<byte>, address: SockAddr)
    requires address.WellFormed()
    ensures Trailer(Received(payload, address), |payload|) == Some(Encode(address))
    ensures Decode(Encode(address)).Some?
    ensures var back := Decode(Encode(address)).value;
            back.Inet? == address.Inet? && back.port == address.port && back.ip == address.ip
    ensures Decode(Encode(address)) == Some(address) <==> (address.Inet6? ==> address.flow == 0 && address.scope == 0)
  {
    var block := Received(payload, address);
    var n := AddressSize(address);
    assert block[|payload|] == Encode(address)[0];
    assert block[|payload| .. |payload| + n] == Encode(address);
    assert Encode(address)[1..3] == address.port;
    assert Encode(address)[3..n] == address.ip;
  }

  /** Decoding accepts exactly the encodings, so a reply address names one sender. */
  lemma DecodeInverse(bytes: seq<byte>)
    ensures Decode(bytes).Some? ==> Encode(Decode(bytes).value) == bytes
    ensures Decode(bytes).None? <==> !(exists a: SockAddr :: a.WellFormed() && Encode(a) == bytes)
  {
    if Decode(bytes).Some? {
      var a := Decode(bytes).value;
      assert [bytes[0]] + bytes[1..3] + bytes[3..] == bytes;
      assert Encode(a) == bytes;
    } else {
      forall a: SockAddr | a.WellFormed() ensures Encode(a) != bytes {
        if Encode(a) == bytes { SenderRoundTrip([], a); }
      }
    }
  }
}
