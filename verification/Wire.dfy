/** The datagram envelope and the target codec, as both ends of the tunnel write and read them.
    Host text is kept as its bytes on the wire. */
module Wire {
  import opened Bytes

  const MAX_WIRE_DATAGRAM: nat := 1150
  const MAX_DATAGRAM_PAYLOAD: nat := 65507
  const MAX_HOST_LEN: nat := 255

  const ADDR_IPV4: byte := 1
  const ADDR_DOMAIN: byte := 3
  const ADDR_IPV6: byte := 4

  datatype Result<+T, +E> = Ok(value: T) | Err(error: E)

  datatype ProtocolError =
    | MissingAddressType | TruncatedIpv4 | TruncatedIpv6 | MissingDomainLength | TruncatedDomain
    | EmptyDomain | UnsupportedAddressType | DatagramTooShort | MissingPort | PortOutOfRange
    | PayloadTooLarge

  datatype ServerError =
    | FlowIdOutOfRange | HostEmptyOrTooLong | BadPort | TooLargeForTunnel | TooShort
    | InvalidHost | InvalidHostEncoding

  /** A packet as the server holds it, and as it crosses the wire. */
  datatype Packet = Packet(flow: int, host: seq<byte>, port: int, payload: seq<byte>)

  datatype Address = Ipv4(octets: seq<byte>) | Ipv6(octets: seq<byte>) | Domain(text: seq<byte>) {
    /** What the Rust types guarantee of an address. */
    predicate WellFormed() {
      match this
      case Ipv4(octets) => |octets| == 4
      case Ipv6(octets) => |octets| == 16
      case Domain(_) => true
    }
  }

  /** A packet as the client holds it. */
  datatype ClientPacket = ClientPacket(flow: int, host: Address, port: int, payload: seq<byte>) {
    predicate WellFormed() {
      0 <= flow < U32 && 0 <= port < U16 && host.WellFormed()
    }
  }

  /** The library functions that print and parse IP addresses and test text validity. */
  datatype TextCodec = TextCodec(
    print4: seq<byte> -> seq<byte>, print6: seq<byte> -> seq<byte>,
    parse: seq<byte> -> Option<Address>, utf8: seq<byte> -> bool, idna: seq<byte> -> bool)
  {
    /** Printing an address gives short valid text that parses back to the same address. */
    ghost predicate Lawful() {
      && (forall o :: |o| == 4 ==> IsTextOf(print4(o), Ipv4(o)))
      && (forall o :: |o| == 16 ==> IsTextOf(print6(o), Ipv6(o)))
      && (forall t :: parse(t).Some? ==> !parse(t).value.Domain? && parse(t).value.WellFormed())
    }

    predicate IsTextOf(text: seq<byte>, address: Address) {
      1 <= |text| <= 45 && utf8(text) && parse(text) == Some(address)
    }

    function AddressString(host: Address): seq<byte> {
      match host
      case Ipv4(octets) => print4(octets)
      case Ipv6(octets) => print6(octets)
      case Domain(text) => text
    }

    function ParseHost(text: seq<byte>): Address {
      match parse(text)
      case Some(address) => address
      case None => Domain(text)
    }

    /** The packet that crosses the wire for a client packet. */
    function OnWire(packet: ClientPacket): Packet {
      Packet(packet.flow, AddressString(packet.host), packet.port, packet.payload)
    }

    /** The client packet read from a packet that crossed the wire. */
    function FromWire(packet: Packet): ClientPacket {
      ClientPacket(packet.flow, ParseHost(packet.host), packet.port, packet.payload)
    }
  }

  // ---- The envelope --------------------------------------------------------------------------

  predicate Encodable(packet: Packet) {
    && 0 <= packet.flow < U32
    && 1 <= |packet.host| <= MAX_HOST_LEN
    && 1 <= packet.port < U16
    && 7 + |packet.host| + |packet.payload| <= MAX_WIRE_DATAGRAM
  }

  function Envelope(packet: Packet): (data: seq<byte>)
    requires 0 <= packet.flow < U32 && |packet.host| < 256 && 0 <= packet.port < U16
    ensures |data| == 7 + |packet.host| + |packet.payload|
  {
    Be32(packet.flow) + [|packet.host|] + Be16(packet.port) + packet.host + packet.payload
  }

  function ServerEncode(packet: Packet): Result<seq<byte>, ServerError> {
    if !(0 <= packet.flow <= 0xFFFF_FFFF) then Err(FlowIdOutOfRange)
    else if packet.host == [] || |packet.host| > MAX_HOST_LEN then Err(HostEmptyOrTooLong)
    else if !(1 <= packet.port <= 65535) then Err(BadPort)
    else
      var encoded := Envelope(packet);
      if |encoded| > MAX_WIRE_DATAGRAM then Err(TooLargeForTunnel) else Ok(encoded)
  }

  function ClientEncode(codec: TextCodec, packet: ClientPacket): Result<seq<byte>, ProtocolError>
    requires packet.WellFormed()
  {
    if |packet.payload| > MAX_DATAGRAM_PAYLOAD then Err(PayloadTooLarge)
    else if packet.port == 0 then Err(PortOutOfRange)
    else
      var host := codec.AddressString(packet.host);
      if host == [] || |host| > 255 then Err(EmptyDomain)
      else
        var out := Envelope(codec.OnWire(packet));
        if |out| > MAX_WIRE_DATAGRAM then Err(PayloadTooLarge) else Ok(out)
  }

  /** The client fills its buffer field by field. */
  method EncodeDatagram(codec: TextCodec, packet: ClientPacket) returns (r: Result<seq<byte>, ProtocolError>)
    requires packet.WellFormed()
    ensures r == ClientEncode(codec, packet)
  {
    if |packet.payload| > MAX_DATAGRAM_PAYLOAD {
      return Err(PayloadTooLarge);
    }
    if packet.port == 0 {
      return Err(PortOutOfRange);
    }
    var host := codec.AddressString(packet.host);
    if host == [] || |host| > 255 {
      return Err(EmptyDomain);
    }
    var out := Be32(packet.flow);
    out := out + [|host|];
    out := out + Be16(packet.port);
    out := out + host;
    out := out + packet.payload;
    if |out| > MAX_WIRE_DATAGRAM {
      return Err(PayloadTooLarge);
    }
    return Ok(out);
  }

  function ServerDecode(codec: TextCodec, data: seq<byte>): Result<Packet, ServerError> {
    if |data| > MAX_WIRE_DATAGRAM then Err(TooLargeForTunnel)
    else if |data| < 7 then Err(TooShort)
    else
      var flow := FromBe32(data[..4]);
      var hostLen: nat := data[4];
      var port := FromBe16(data[5..7]);
      var end := 7 + hostLen;
      if hostLen == 0 || |data| < end then Err(InvalidHost)
      else if !codec.idna(data[7..end]) then Err(InvalidHostEncoding)
      else if !(1 <= port <= 65535) then Err(BadPort)
      else Ok(Packet(flow, data[7..end], port, data[end..]))
  }

  function ClientDecode(codec: TextCodec, data: seq<byte>): Result<ClientPacket, ProtocolError> {
    if |data| > MAX_WIRE_DATAGRAM then Err(PayloadTooLarge)
    else if |data| < 8 then Err(DatagramTooShort)
    else
      var flow := FromBe32(data[..4]);
      var hostLen: nat := data[4];
      var end := 7 + hostLen;
      if hostLen == 0 then Err(EmptyDomain)
      else if |data| < end then Err(TruncatedDomain)
      else if !codec.utf8(data[7..end]) then Err(TruncatedDomain)
      else
        var host := codec.ParseHost(data[7..end]);
        var port := FromBe16(data[5..7]);
        if port == 0 then Err(PortOutOfRange)
        else if |data[end..]| > MAX_DATAGRAM_PAYLOAD then Err(PayloadTooLarge)
        else Ok(ClientPacket(flow, host, port, data[end..]))
  }

  /** Which byte strings are frames at all, whatever the text rules: exactly the envelopes. */
  ghost predicate IsFrameOf(data: seq<byte>, packet: Packet) {
    Encodable(packet) && data == Envelope(packet)
  }

  lemma EnvelopeFields(packet: Packet)
    requires 0 <= packet.flow < U32 && |packet.host| < 256 && 0 <= packet.port < U16
    ensures var d := Envelope(packet); var end := 7 + |packet.host|;
            && FromBe32(d[..4]) == packet.flow && d[4] == |packet.host|
            && FromBe16(d[5..7]) == packet.port
            && d[7..end] == packet.host && d[end..] == packet.payload
  {
    var d := Envelope(packet);
    Be32RoundTrip(packet.flow);
    Be16RoundTrip(packet.port);
    assert d[..4] == Be32(packet.flow);
    assert d[5..7] == Be16(packet.port);
  }

  lemma FieldsMakeEnvelope(d: seq<byte>)
    requires |d| >= 7 && |d| >= 7 + d[4] as int
    ensures var end := 7 + d[4] as int;
            d == Envelope(Packet(FromBe32(d[..4]), d[7..end], FromBe16(d[5..7]), d[end..]))
  {
    FromBe32RoundTrip(d[..4]);
    FromBe16RoundTrip(d[5..7]);
    assert d == d[..4] + [d[4]] + d[5..7] + d[7..7 + d[4]] + d[7 + d[4]..];
  }

  /** The server accepts exactly the envelopes of encodable packets whose host text it can read. */
  lemma ServerDecodeInverts(codec: TextCodec, data: seq<byte>, packet: Packet)
    ensures ServerDecode(codec, data) == Ok(packet) <==> IsFrameOf(data, packet) && codec.idna(packet.host)
    ensures ServerEncode(packet) == Ok(data) <==> IsFrameOf(data, packet)
  {
    if Encodable(packet) {
      EnvelopeFields(packet);
    }
    if |data| >= 7 && |data| >= 7 + data[4] as int {
      FieldsMakeEnvelope(data);
    }
  }

  /** The client accepts exactly the envelopes of encodable packets whose host text is valid, and
      reads the host by parsing that text. */
  lemma ClientDecodeInverts(codec: TextCodec, data: seq<byte>, packet: Packet)
    ensures IsFrameOf(data, packet) && codec.utf8(packet.host)
            ==> ClientDecode(codec, data) == Ok(codec.FromWire(packet))
    ensures ClientDecode(codec, data).Ok?
            ==> exists p :: IsFrameOf(data, p) && codec.utf8(p.host)
                  && ClientDecode(codec, data) == Ok(codec.FromWire(p))
  {
    if Encodable(packet) {
      EnvelopeFields(packet);
    }
    if ClientDecode(codec, data).Ok? {
      FieldsMakeEnvelope(data);
      var end := 7 + data[4] as int;
      var p := Packet(FromBe32(data[..4]), data[7..end], FromBe16(data[5..7]), data[end..]);
      assert IsFrameOf(data, p) && codec.utf8(p.host);
    }
  }

  /** Both ends accept the same byte strings, up to each one's rule for host text, and read the
      same flow, host text, port and payload. */
  lemma DecodersAgree(codec: TextCodec, data: seq<byte>)
    ensures ServerDecode(codec, data).Ok? ==>
              var packet := ServerDecode(codec, data).value;
              && (ClientDecode(codec, data).Ok? <==> codec.utf8(packet.host))
              && (codec.utf8(packet.host) ==> ClientDecode(codec, data) == Ok(codec.FromWire(packet)))
    ensures ClientDecode(codec, data).Ok? ==>
              && |data| >= 7 + data[4] as int
              && (ServerDecode(codec, data).Ok? <==> codec.idna(data[7..7 + data[4]]))
  {
  }

  /** What the client sends, the client reads back unchanged exactly when a domain is not an IP literal. */
  lemma ClientRoundTrip(codec: TextCodec, packet: ClientPacket)
    requires codec.Lawful() && packet.WellFormed()
    requires packet.host.Domain? ==> codec.utf8(packet.host.text)
    requires ClientEncode(codec, packet).Ok?
    ensures ClientDecode(codec, ClientEncode(codec, packet).value) == Ok(packet)
            <==> (packet.host.Domain? ==> codec.parse(packet.host.text).None?)
  {
    var wire := codec.OnWire(packet);
    assert match packet.host
      case Ipv4(o) => codec.IsTextOf(codec.print4(o), packet.host)
      case Ipv6(o) => codec.IsTextOf(codec.print6(o), packet.host)
      case Domain(_) => true;
    ClientDecodeInverts(codec, Envelope(wire), wire);
  }

  /** Re-encoding what the client decoded gives the same bytes exactly when the host text is canonical. */
  lemma ClientReencode(codec: TextCodec, data: seq<byte>)
    requires codec.Lawful() && ClientDecode(codec, data).Ok?
    ensures var packet := ClientDecode(codec, data).value; var text := data[7..7 + data[4]];
            packet.WellFormed()
            && (ClientEncode(codec, packet) == Ok(data) <==> codec.AddressString(codec.ParseHost(text)) == text)
  {
    var packet := ClientDecode(codec, data).value;
    var text := data[7..7 + data[4]];
    FieldsMakeEnvelope(data);
    if ClientEncode(codec, packet) == Ok(data) {
      EnvelopeFields(codec.OnWire(packet));
    }
  }

  // ---- Targets -------------------------------------------------------------------------------

  /** The domain length is cast to one byte, so longer text is cut modulo 256. */
  function EncodeAddress(host: Address): seq<byte> {
    match host
    case Ipv4(octets) => [ADDR_IPV4] + octets
    case Ipv6(octets) => [ADDR_IPV6] + octets
    case Domain(text) => [ADDR_DOMAIN, |text| % 256] + text
  }

  function DecodeAddress(codec: TextCodec, data: seq<byte>, offset: nat): Result<(Address, nat), ProtocolError> {
    if offset >= |data| then Err(MissingAddressType)
    else
      var kind, at := data[offset], offset + 1;
      if kind == ADDR_IPV4 then
        if at + 4 > |data| then Err(TruncatedIpv4) else Ok((Ipv4(data[at..at + 4]), at + 4))
      else if kind == ADDR_IPV6 then
        if at + 16 > |data| then Err(TruncatedIpv6) else Ok((Ipv6(data[at..at + 16]), at + 16))
      else if kind == ADDR_DOMAIN then
        if at >= |data| then Err(MissingDomainLength)
        else
          var len, from := data[at], at + 1;
          if len == 0 then Err(EmptyDomain)
          else if from + len > |data| then Err(TruncatedDomain)
          else if !codec.utf8(data[from..from + len]) then Err(TruncatedDomain)
          else Ok((Domain(data[from..from + len]), from + len))
      else Err(UnsupportedAddressType)
  }

  function EncodeTarget(host: Address, port: int): Result<seq<byte>, ProtocolError>
    requires 0 <= port < U16
  {
    if port == 0 then Err(PortOutOfRange) else Ok(EncodeAddress(host) + Be16(port))
  }

  function DecodeTarget(codec: TextCodec, data: seq<byte>): Result<(Address, int), ProtocolError> {
    match DecodeAddress(codec, data, 0)
    case Err(e) => Err(e)
    case Ok((host, offset)) =>
      if offset + 2 > |data| then Err(MissingPort)
      else
        var port := FromBe16(data[offset..offset + 2]);
        if port == 0 || offset + 2 != |data| then Err(PortOutOfRange) else Ok((host, port))
  }

  /** The address reader finds an encoded address at any offset of a larger buffer and stops at its end. */
  lemma DecodeAddressAnywhere(codec: TextCodec, before: seq<byte>, host: Address, after: seq<byte>)
    requires host.WellFormed()
    requires host.Domain? ==> 1 <= |host.text| <= 255 && codec.utf8(host.text)
    ensures DecodeAddress(codec, before + EncodeAddress(host) + after, |before|)
         == Ok((host, |before| + |EncodeAddress(host)|))
  {
    var data := before + EncodeAddress(host) + after;
    var skip := if host.Domain? then 2 else 1;
    MiddleSlice(before, EncodeAddress(host), after, skip);
    assert data[|before|] == EncodeAddress(host)[0];
    match host {
      case Ipv4(o) =>
      case Ipv6(o) =>
      case Domain(t) => assert data[|before| + 1] == EncodeAddress(host)[1];
    }
  }

  lemma MiddleSlice<T>(before: seq<T>, middle: seq<T>, after: seq<T>, skip: nat)
    requires skip <= |middle|
    ensures (before + middle + after)[|before| + skip..|before| + |middle|] == middle[skip..]
  {
  }

  /** The bytes the address reader consumed are the encoding of the address it returned. */
  lemma EncodeDecodedAddress(codec: TextCodec, data: seq<byte>, offset: nat)
    requires DecodeAddress(codec, data, offset).Ok?
    ensures var (host, end) := DecodeAddress(codec, data, offset).value;
            offset < end <= |data| && host.WellFormed() && data[offset..end] == EncodeAddress(host)
  {
    var (host, end) := DecodeAddress(codec, data, offset).value;
    if host.Domain? {
      assert data[offset..end] == data[offset..offset + 2] + data[offset + 2..end];
      assert data[offset..offset + 2] == [data[offset], data[offset + 1]];
    } else {
      assert data[offset..end] == [data[offset]] + data[offset + 1..end];
    }
  }

  /** A target survives the round trip exactly when its domain has 1 to 255 bytes. */
  lemma TargetRoundTrip(codec: TextCodec, host: Address, port: int)
    requires host.WellFormed() && 1 <= port < U16
    requires host.Domain? ==> codec.utf8(host.text)
    ensures DecodeTarget(codec, EncodeTarget(host, port).value) == Ok((host, port))
            <==> (host.Domain? ==> 1 <= |host.text| <= 255)
  {
    var data := EncodeTarget(host, port).value;
    if host.Domain? ==> 1 <= |host.text| <= 255 {
      DecodeAddressAnywhere(codec, [], host, Be16(port));
      assert [] + EncodeAddress(host) + Be16(port) == data;
      Be16RoundTrip(port);
      assert data[|data| - 2..] == Be16(port);
    }
  }

  /** Every accepted target is the encoding of what was read from it. */
  lemma TargetReencode(codec: TextCodec, data: seq<byte>)
    requires DecodeTarget(codec, data).Ok?
    ensures var (host, port) := DecodeTarget(codec, data).value;
            1 <= port < U16 && EncodeTarget(host, port) == Ok(data)
  {
    EncodeDecodedAddress(codec, data, 0);
    var (host, end) := DecodeAddress(codec, data, 0).value;
    FromBe16RoundTrip(data[end..end + 2]);
    assert data == data[0..end] + data[end..end + 2];
  }
}
