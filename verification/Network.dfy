/**
 The authenticated network contract of guest/stage1/init.c: a closed object with a fixed key
 order, literal addresses and a resolver list that only outbound NAT may carry.
 */
module Networks {
  import opened Bytes
  import JsonTexts
  import Decimals
  import opened Parsers

  const NAMESERVER_MAX := 3

  /** Addresses are their four bytes in network order, nameservers stay text. */
  datatype Network =
    | Disabled
    | Enabled(address: seq<byte>, gateway: seq<byte>, mac: seq<byte>, outbound: bool, nameservers: seq<seq<byte>>,
        netmask: seq<byte>)

  predicate PlainChar(c: char) {
    0x20 <= c as int < 0x80 && c != '"' && c != '\\'
  }

  function Code(c: char): (b: byte)
    requires PlainChar(c)
    ensures PlainByte(b)
  {
    c as int
  }

  function Ascii(s: string): (r: seq<byte>)
    requires forall c | c in s :: PlainChar(c)
    ensures |r| == |s| && PlainRaw(r)
  {
    seq(|s|, i requires 0 <= i < |s| => assert s[i] in s; Code(s[i]))
  }

  // ----- Dotted quads

  datatype Octet = NoOctet | Octet(value: byte, rest: seq<byte>)

  /** The bytes that a whole text stands for. */
  datatype Spelled = Misspelled | Spelled(value: seq<byte>)

  function ReadOctet(s: seq<byte>): Octet {
    var n := Decimals.Leading(s);
    if n <= 3 && Decimals.Canonical(s[..n]) && Decimals.Value(s[..n]) <= 255
    then Octet(Decimals.Value(s[..n]), s[n..])
    else NoOctet
  }

  const DOT: byte := '.' as int

  /** Octets with dots between them, up to the end of the text. */
  function Octets(s: seq<byte>): Spelled
    decreases |s|
  {
    var first := ReadOctet(s);
    if first.NoOctet? then Misspelled
    else if first.rest == [] then Spelled([first.value])
    else if first.rest[0] != DOT then Misspelled
    else
      var more := Octets(first.rest[1..]);
      if more.Misspelled? then Misspelled else Spelled([first.value] + more.value)
  }

  function PrintOctets(v: seq<byte>): seq<byte>
    requires v != []
  {
    Decimals.Print(v[0]) + if |v| == 1 then [] else [DOT] + PrintOctets(v[1..])
  }

  predicate Quad(v: seq<byte>) {
    |v| == 4
  }

  function Ipv4(s: seq<byte>): Spelled {
    var all := Octets(s);
    if all.Spelled? && Quad(all.value) then all else Misspelled
  }

  lemma OctetIff(s: seq<byte>, v: byte, rest: seq<byte>)
    ensures ReadOctet(s) == Octet(v, rest) <==> s == Decimals.Print(v) + rest && (rest != [] ==>
              !Decimals.IsDigit(rest[0]))
  {
    var n := Decimals.Leading(s);
    if ReadOctet(s) == Octet(v, rest) {
      Decimals.ValuePrint(s[..n]);
      assert s == s[..n] + s[n..];
    }
    if s == Decimals.Print(v) + rest && (rest != [] ==> !Decimals.IsDigit(rest[0])) {
      Decimals.PrintParses(v, rest);
      Decimals.PrintValue(v);
      assert Decimals.Pow10(3) == 1000;
      Decimals.PrintWidth(v, 3);
      assert s[|Decimals.Print(v)|..] == rest && s[..|Decimals.Print(v)|] == Decimals.Print(v);
      Decimals.LeadingIs(s, |Decimals.Print(v)|);
    }
  }

  lemma {:induction false} OctetsPrinted(s: seq<byte>)
    requires Octets(s).Spelled?
    ensures Octets(s).value != [] && s == PrintOctets(Octets(s).value)
    decreases |s|
  {
    var first := ReadOctet(s);
    OctetIff(s, first.value, first.rest);
    if first.rest != [] {
      OctetsPrinted(first.rest[1..]);
      assert first.rest == [DOT] + first.rest[1..];
      assert Octets(s).value[1..] == Octets(first.rest[1..]).value;
    } else {
      assert s == Decimals.Print(first.value) + [];
    }
  }

  lemma OctetsStep(s: seq<byte>, tail: seq<byte>, v: seq<byte>)
    requires |v| > 1 && ReadOctet(s) == Octet(v[0], [DOT] + tail) && Octets(tail) == Spelled(v[1..])
    ensures Octets(s) == Spelled(v)
  {
    assert ([DOT] + tail)[1..] == tail;
    assert [v[0]] + v[1..] == v;
  }

  lemma {:induction false} PrintedOctets(s: seq<byte>, v: seq<byte>)
    requires v != [] && s == PrintOctets(v)
    ensures Octets(s) == Spelled(v)
    decreases |v|
  {
    if |v| == 1 {
      OctetIff(s, v[0], []);
      assert v == [v[0]];
    } else {
      var tail := PrintOctets(v[1..]);
      PrintedOctets(tail, v[1..]);
      OctetIff(s, v[0], [DOT] + tail);
      OctetsStep(s, tail, v);
    }
  }

  /** An address has exactly one accepted text. */
  lemma Ipv4Iff(s: seq<byte>, v: seq<byte>)
    ensures Ipv4(s) == Spelled(v) <==> Quad(v) && s == PrintOctets(v)
  {
    if Ipv4(s).Spelled? {
      OctetsPrinted(s);
    }
    if Quad(v) && s == PrintOctets(v) {
      PrintedOctets(s, v);
    }
  }

  lemma {:induction false} OctetsArePlain(v: seq<byte>)
    requires v != []
    ensures PlainRaw(PrintOctets(v)) && PrintOctets(v) != []
    decreases |v|
  {
    if |v| > 1 {
      OctetsArePlain(v[1..]);
    }
  }

  // ----- Hardware addresses

  const COLON: byte := ':' as int

  /** Pairs of hexadecimal digits with colons between them, up to the end of the text. */
  function Pairs(s: seq<byte>): Spelled
    decreases |s|
  {
    if |s| < 2 || !JsonTexts.IsHex(s[0]) || !JsonTexts.IsHex(s[1]) then Misspelled
    else
      var b := 16 * JsonTexts.HexValue(s[0]) + JsonTexts.HexValue(s[1]);
      if |s| == 2 then Spelled([b])
      else if s[2] != COLON then Misspelled
      else
        var more := Pairs(s[3..]);
        if more.Misspelled? then Misspelled else Spelled([b] + more.value)
  }

  function Mac(s: seq<byte>): Spelled {
    var all := Pairs(s);
    if all.Spelled? && |all.value| == 6 then all else Misspelled
  }

  function PrintPairs(v: seq<byte>): (s: seq<byte>)
    requires v != []
    ensures |s| >= 2
  {
    [JsonTexts.HexDigit(v[0] / 16), JsonTexts.HexDigit(v[0] % 16)] + if |v| == 1 then []
        else [COLON] + PrintPairs(v[1..])
  }

  lemma {:induction false} PairsPrinted(s: seq<byte>)
    requires Pairs(s).Spelled?
    ensures var v := Pairs(s).value;
            v != [] && s == PrintPairs(v) && |s| == 3 * |v| - 1
    decreases |s|
  {
    JsonTexts.HexUnique(s[0]);
    JsonTexts.HexUnique(s[1]);
    if |s| > 2 {
      PairsPrinted(s[3..]);
      assert s == [s[0], s[1]] + ([COLON] + s[3..]);
      assert Pairs(s).value[1..] == Pairs(s[3..]).value;
    } else {
      assert s == [s[0], s[1]] + [];
    }
  }

  lemma HexPair(b: byte)
    ensures 16 * JsonTexts.HexValue(JsonTexts.HexDigit(b / 16)) + JsonTexts.HexValue(JsonTexts.HexDigit(b % 16)) == b
  {
  }

  /** What stands behind the first pair and its colon. */
  lemma BehindFirstPair(s: seq<byte>, high: byte, low: byte, rest: seq<byte>)
    requires s == [high, low] + ([COLON] + rest)
    ensures |s| == |rest| + 3 && s[0] == high && s[1] == low && s[2] == COLON && s[3..] == rest
  {
  }

  lemma {:induction false} PrintedPairs(s: seq<byte>, v: seq<byte>)
    requires v != [] && s == PrintPairs(v)
    ensures Pairs(s) == Spelled(v)
    decreases |v|
  {
    HexPair(v[0]);
    if |v| > 1 {
      BehindFirstPair(s, JsonTexts.HexDigit(v[0] / 16), JsonTexts.HexDigit(v[0] % 16), PrintPairs(v[1..]));
      PrintedPairs(s[3..], v[1..]);
      assert [v[0]] + v[1..] == v;
    } else {
      assert v == [v[0]];
    }
  }

  /** A hardware address has exactly one accepted text, of seventeen characters. */
  lemma MacIff(s: seq<byte>, v: seq<byte>)
    ensures Mac(s) == Spelled(v) <==> |v| == 6 && s == PrintPairs(v)
    ensures Mac(s).Spelled? ==> |s| == 17
  {
    if Mac(s).Spelled? {
      PairsPrinted(s);
    }
    if |v| == 6 && s == PrintPairs(v) {
      PrintedPairs(s, v);
    }
  }

  lemma {:induction false} PairsArePlain(v: seq<byte>)
    requires v != []
    ensures PlainRaw(PrintPairs(v)) && PrintPairs(v) != []
    decreases |v|
  {
    if |v| > 1 {
      PairsArePlain(v[1..]);
    }
  }

  // ----- The contract

  const BRACKET: byte := ']' as int
  const BRACE: byte := '{' as int
  const OPEN: byte := '[' as int
  const COMMA: byte := ',' as int

  /** A fixed prefix and the plain string behind it. */
  function Field(s: seq<byte>, prefix: seq<byte>): Text {
    var l := Literal(s, prefix);
    if l.NoMatch? then NoText else Plain(l.rest)
  }

  function PrintField(prefix: seq<byte>, raw: seq<byte>, rest: seq<byte>): seq<byte> {
    prefix + Quoted(raw, rest)
  }

  lemma FieldIff(s: seq<byte>, prefix: seq<byte>, raw: seq<byte>, rest: seq<byte>)
    ensures Field(s, prefix) == Text(raw, rest) <==> PlainRaw(raw) && s == PrintField(prefix, raw, rest)
  {
    var l := Literal(s, prefix);
    if l.Match? {
      LiteralIff(s, prefix, l.rest);
      PlainIff(l.rest, raw, rest);
    }
    if PlainRaw(raw) && s == PrintField(prefix, raw, rest) {
      LiteralIff(s, prefix, Quoted(raw, rest));
      PlainIff(Quoted(raw, rest), raw, rest);
    }
  }

  /** The texts of a list, and what it leaves. */
  datatype Texts = NoTexts | Texts(all: seq<seq<byte>>, rest: seq<byte>)

  /** A list of addresses that is not empty; its opening bracket is already read. */
  function Elements(s: seq<byte>): Texts
    decreases |s|
  {
    var first := Plain(s);
    if first.NoText? || Ipv4(first.raw).Misspelled? || first.rest == [] then NoTexts
    else if first.rest[0] == BRACKET then Texts([first.raw], first.rest[1..])
    else if first.rest[0] != COMMA then NoTexts
    else
      var more := Elements(first.rest[1..]);
      if more.NoTexts? then NoTexts else Texts([first.raw] + more.all, more.rest)
  }

  function Servers(s: seq<byte>): Texts {
    if s != [] && s[0] == BRACKET then Texts([], s[1..])
    else
      var list := Elements(s);
      if list.Texts? && |list.all| <= NAMESERVER_MAX then list else NoTexts
  }

  predicate ServerTexts(v: seq<seq<byte>>) {
    v == [] || (Ipv4(v[0]).Spelled? && ServerTexts(v[1..]))
  }

  function PrintServers(v: seq<seq<byte>>, rest: seq<byte>): seq<byte> {
    if v == [] then [BRACKET] + rest
    else Quoted(v[0], if |v| == 1 then [BRACKET] + rest else [COMMA] + PrintServers(v[1..], rest))
  }

  lemma ElementsStep(s: seq<byte>, raw: seq<byte>, tail: seq<byte>, more: Texts, list: Texts)
    requires Plain(s) == Text(raw, [COMMA] + tail) && more == Elements(tail) && list == Elements(s)
    ensures list == if Ipv4(raw).Misspelled? || more.NoTexts? then NoTexts else Texts([raw] + more.all, more.rest)
  {
    assert ([COMMA] + tail)[1..] == tail;
  }

  lemma ElementsLast(s: seq<byte>, raw: seq<byte>, rest: seq<byte>)
    requires Plain(s) == Text(raw, [BRACKET] + rest)
    ensures Elements(s) == if Ipv4(raw).Misspelled? then NoTexts else Texts([raw], rest)
  {
    assert ([BRACKET] + rest)[1..] == rest;
  }

  lemma ElementsShape(s: seq<byte>)
    requires Elements(s).Texts?
    ensures Plain(s).Text? && Ipv4(Plain(s).raw).Spelled? && Plain(s).rest != []
    ensures Plain(s).rest[0] == BRACKET || Plain(s).rest[0] == COMMA
  {
  }

  lemma {:induction false} ElementsPrinted(s: seq<byte>, list: Texts)
    requires list == Elements(s) && list.Texts?
    ensures list.all != [] && ServerTexts(list.all) && s == PrintServers(list.all, list.rest)
    decreases |s|
  {
    ElementsShape(s);
    var raw, after := Plain(s).raw, Plain(s).rest;
    PlainIff(s, raw, after);
    var tail := after[1..];
    assert after == [after[0]] + tail;
    if after[0] == BRACKET {
      ElementsLast(s, raw, tail);
    } else {
      var more := Elements(tail);
      ElementsStep(s, raw, tail, more, list);
      ElementsPrinted(tail, more);
      assert list.all[1..] == more.all;
    }
  }

  lemma AddressIsPlain(raw: seq<byte>)
    requires Ipv4(raw).Spelled?
    ensures PlainRaw(raw)
  {
    OctetsPrinted(raw);
    OctetsArePlain(Ipv4(raw).value);
  }

  lemma {:induction false} PrintedElements(s: seq<byte>, v: seq<seq<byte>>, rest: seq<byte>, list: Texts)
    requires v != [] && ServerTexts(v) && s == PrintServers(v, rest) && list == Elements(s)
    ensures list == Texts(v, rest)
    decreases |v|
  {
    AddressIsPlain(v[0]);
    if |v| == 1 {
      PlainReads(v[0], [BRACKET] + rest);
      ElementsLast(s, v[0], rest);
      assert [v[0]] == v;
    } else {
      var tail := PrintServers(v[1..], rest);
      var more := Elements(tail);
      PrintedElements(tail, v[1..], rest, more);
      PlainReads(v[0], [COMMA] + tail);
      ElementsStep(s, v[0], tail, more, list);
      assert [v[0]] + v[1..] == v;
    }
  }

  lemma ServersIff(s: seq<byte>, v: seq<seq<byte>>, rest: seq<byte>)
    ensures Servers(s) == Texts(v, rest) <==> |v| <= NAMESERVER_MAX && ServerTexts(v) && s == PrintServers(v, rest)
  {
    if Servers(s) == Texts(v, rest) {
      if s[0] == BRACKET {
        assert s == [BRACKET] + s[1..];
      } else {
        ElementsPrinted(s, Elements(s));
      }
    }
    if |v| <= NAMESERVER_MAX && ServerTexts(v) && s == PrintServers(v, rest) {
      if v == [] {
        assert s[1..] == rest;
      } else {
        PrintedElements(s, v, rest, Elements(s));
      }
    }
  }

  const ADDRESS := [BRACE] + KeyText(Ascii("address"))
  const GATEWAY := [COMMA] + KeyText(Ascii("gateway"))
  const INTERFACE := [COMMA] + KeyText(Ascii("interface"))
  const MAC := [COMMA] + KeyText(Ascii("mac"))
  const MODE := [COMMA] + KeyText(Ascii("mode"))
  const NAMESERVERS := [COMMA] + KeyText(Ascii("nameservers")) + [OPEN]
  const NETMASK := [COMMA] + KeyText(Ascii("netmask"))
  const CLOSE := Ascii("}")
  const ETH0 := Ascii("eth0")
  const NAT := Ascii("nat")
  const HOST_ONLY := Ascii("host-only")
  const NONE := Ascii("none")

  /** The first part of the object. */
  datatype Head = Head(address: seq<byte>, gateway: seq<byte>, mac: seq<byte>, mode: seq<byte>)

  datatype HeadRead = NoHead | HeadRead(head: Head, rest: seq<byte>)

  datatype AddressesRead = NoAddresses | AddressesRead(address: seq<byte>, gateway: seq<byte>, rest: seq<byte>)

  datatype DeviceRead = NoDevice | DeviceRead(mac: seq<byte>, mode: seq<byte>, rest: seq<byte>)

  function ParseAddresses(s: seq<byte>): AddressesRead {
    var address := Field(s, ADDRESS);
    if address.NoText? then NoAddresses else
    var gateway := Field(address.rest, GATEWAY);
    if gateway.NoText? then NoAddresses else AddressesRead(address.raw, gateway.raw, gateway.rest)
  }

  function ParseDevice(s: seq<byte>): DeviceRead {
    var name := Field(s, INTERFACE);
    if name.NoText? || name.raw != ETH0 then NoDevice else
    var mac := Field(name.rest, MAC);
    if mac.NoText? then NoDevice else
    var mode := Field(mac.rest, MODE);
    if mode.NoText? then NoDevice else DeviceRead(mac.raw, mode.raw, mode.rest)
  }

  function ParseHead(s: seq<byte>): HeadRead {
    var addresses := ParseAddresses(s);
    if addresses.NoAddresses? then NoHead else
    var device := ParseDevice(addresses.rest);
    if device.NoDevice? then NoHead
    else HeadRead(Head(addresses.address, addresses.gateway, device.mac, device.mode), device.rest)
  }

  function PrintHead(h: Head, rest: seq<byte>): seq<byte> {
    PrintField(ADDRESS, h.address,
    PrintField(GATEWAY, h.gateway,
    PrintField(INTERFACE, ETH0,
    PrintField(MAC, h.mac,
    PrintField(MODE, h.mode, rest)))))
  }

  predicate PlainHead(h: Head) {
    PlainRaw(h.address) && PlainRaw(h.gateway) && PlainRaw(h.mac) && PlainRaw(h.mode)
  }

  /** The second part: the resolvers and the netmask. */
  datatype Rest = Rest(nameservers: seq<seq<byte>>, netmask: seq<byte>)

  datatype RestRead = NoRest | RestRead(tail: Rest, rest: seq<byte>)

  function ParseResolvers(s: seq<byte>): Texts {
    var opening := Literal(s, NAMESERVERS);
    if opening.NoMatch? then NoTexts else Servers(opening.rest)
  }

  /** The netmask and the end of the object. */
  function ParseMask(s: seq<byte>): Text {
    var netmask := Field(s, NETMASK);
    if netmask.NoText? then NoText else
    var closing := Literal(netmask.rest, CLOSE);
    if closing.NoMatch? then NoText else Text(netmask.raw, closing.rest)
  }

  function ParseRest(s: seq<byte>): RestRead {
    var servers := ParseResolvers(s);
    if servers.NoTexts? then NoRest else
    var netmask := ParseMask(servers.rest);
    if netmask.NoText? then NoRest else RestRead(Rest(servers.all, netmask.raw), netmask.rest)
  }

  function PrintRest(r: Rest, rest: seq<byte>): seq<byte> {
    NAMESERVERS + PrintServers(r.nameservers, PrintField(NETMASK, r.netmask, CLOSE + rest))
  }

  /** The meaning of the fields, if they agree with the mode. */
  function Contract(h: Head, r: Rest): Option<Network> {
    if h.address == [] then
      if h.gateway == [] && h.mac == [] && h.mode == NONE && r.nameservers == [] &&
          r.netmask == [] then Some(Disabled) else None
    else
      var address, gateway, mac, netmask := Ipv4(h.address), Ipv4(h.gateway), Mac(h.mac), Ipv4(r.netmask);
      if address.Misspelled? || gateway.Misspelled? || mac.Misspelled? || netmask.Misspelled? then None
      else if h.mode == NAT && r.nameservers != [] then
        Some(Enabled(address.value, gateway.value, mac.value, true, r.nameservers, netmask.value))
      else if h.mode == HOST_ONLY && r.nameservers == [] then
        Some(Enabled(address.value, gateway.value, mac.value, false, [], netmask.value))
      else None
  }

  datatype NetworkRead = NoNetwork | NetworkRead(network: Network, rest: seq<byte>)

  function ParseNetwork(s: seq<byte>): NetworkRead {
    var head := ParseHead(s);
    if head.NoHead? then NoNetwork else
    var tail := ParseRest(head.rest);
    if tail.NoRest? then NoNetwork else
    var network := Contract(head.head, tail.tail);
    if network.None? then NoNetwork else NetworkRead(network.value, tail.rest)
  }

  predicate Valid(n: Network) {
    n.Enabled? ==>
      && Quad(n.address) && Quad(n.gateway) && Quad(n.netmask) && |n.mac| == 6
      && |n.nameservers| <= NAMESERVER_MAX && ServerTexts(n.nameservers)
      && (n.outbound <==> n.nameservers != [])
  }

  function HeadOf(n: Network): Head
    requires Valid(n)
  {
    match n
    case Disabled => Head([], [], [], NONE)
    case Enabled(address, gateway, mac, outbound, _, _) =>
      Head(PrintOctets(address), PrintOctets(gateway), PrintPairs(mac), if outbound then NAT else HOST_ONLY)
  }

  function RestOf(n: Network): Rest
    requires Valid(n)
  {
    match n
    case Disabled => Rest([], [])
    case Enabled(_, _, _, _, nameservers, netmask) => Rest(nameservers, PrintOctets(netmask))
  }

  /** The one text of a contract, followed by whatever comes next. */
  function PrintNetwork(n: Network, rest: seq<byte>): seq<byte>
    requires Valid(n)
  {
    PrintHead(HeadOf(n), PrintRest(RestOf(n), rest))
  }

  lemma HeadPrinted(s: seq<byte>)
    requires ParseHead(s).HeadRead?
    ensures PlainHead(ParseHead(s).head) && s == PrintHead(ParseHead(s).head, ParseHead(s).rest)
  {
    var address := Field(s, ADDRESS);
    FieldIff(s, ADDRESS, address.raw, address.rest);
    var gateway := Field(address.rest, GATEWAY);
    FieldIff(address.rest, GATEWAY, gateway.raw, gateway.rest);
    var name := Field(gateway.rest, INTERFACE);
    FieldIff(gateway.rest, INTERFACE, name.raw, name.rest);
    var mac := Field(name.rest, MAC);
    FieldIff(name.rest, MAC, mac.raw, mac.rest);
    var mode := Field(mac.rest, MODE);
    FieldIff(mac.rest, MODE, mode.raw, mode.rest);
  }

  lemma FieldReads(prefix: seq<byte>, raw: seq<byte>, rest: seq<byte>, s: seq<byte>, r: Text)
    requires PlainRaw(raw) && s == PrintField(prefix, raw, rest) && r == Field(s, prefix)
    ensures r == Text(raw, rest)
  {
    FieldIff(s, prefix, raw, rest);
  }

  lemma PrintedHead(h: Head, rest: seq<byte>, s: seq<byte>)
    requires PlainHead(h) && s == PrintHead(h, rest)
    ensures ParseHead(s) == HeadRead(h, rest)
  {
    var s4 := PrintField(MODE, h.mode, rest);
    var s3 := PrintField(MAC, h.mac, s4);
    var s2 := PrintField(INTERFACE, ETH0, s3);
    var s1 := PrintField(GATEWAY, h.gateway, s2);
    FieldReads(MODE, h.mode, rest, s4, Field(s4, MODE));
    FieldReads(MAC, h.mac, s4, s3, Field(s3, MAC));
    FieldReads(INTERFACE, ETH0, s3, s2, Field(s2, INTERFACE));
    FieldReads(GATEWAY, h.gateway, s2, s1, Field(s1, GATEWAY));
    FieldReads(ADDRESS, h.address, s1, s, Field(s, ADDRESS));
  }

  lemma RestPrinted(s: seq<byte>)
    requires ParseRest(s).RestRead?
    ensures var r := ParseRest(s);
            && |r.tail.nameservers| <= NAMESERVER_MAX && ServerTexts(r.tail.nameservers)
            && PlainRaw(r.tail.netmask) && s == PrintRest(r.tail, r.rest)
  {
    var opening := Literal(s, NAMESERVERS);
    LiteralIff(s, NAMESERVERS, opening.rest);
    var servers := Servers(opening.rest);
    ServersIff(opening.rest, servers.all, servers.rest);
    var netmask := Field(servers.rest, NETMASK);
    FieldIff(servers.rest, NETMASK, netmask.raw, netmask.rest);
    LiteralIff(netmask.rest, CLOSE, ParseRest(s).rest);
  }

  lemma PrintedRest(r: Rest, rest: seq<byte>, s: seq<byte>)
    requires |r.nameservers| <= NAMESERVER_MAX && ServerTexts(r.nameservers) && PlainRaw(r.netmask)
    requires s == PrintRest(r, rest)
    ensures ParseRest(s) == RestRead(r, rest)
  {
    var s3 := CLOSE + rest;
    var s2 := PrintField(NETMASK, r.netmask, s3);
    var s1 := PrintServers(r.nameservers, s2);
    LiteralIff(s3, CLOSE, rest);
    FieldIff(s2, NETMASK, r.netmask, s3);
    ServersIff(s1, r.nameservers, s2);
    LiteralIff(s, NAMESERVERS, s1);
  }

  lemma ContractMeans(h: Head, r: Rest, n: Network)
    requires |r.nameservers| <= NAMESERVER_MAX && ServerTexts(r.nameservers) && Contract(h, r) == Some(n)
    ensures Valid(n) && h == HeadOf(n) && r == RestOf(n)
  {
    if n.Enabled? {
      Ipv4Iff(h.address, n.address);
      Ipv4Iff(h.gateway, n.gateway);
      MacIff(h.mac, n.mac);
      Ipv4Iff(r.netmask, n.netmask);
    }
  }

  lemma ContractOf(n: Network, h: Head, r: Rest)
    requires Valid(n) && h == HeadOf(n) && r == RestOf(n)
    ensures Contract(h, r) == Some(n)
  {
    assert |NAT| == 3 && |HOST_ONLY| == 9;
    if n.Enabled? {
      OctetsArePlain(n.address);
      Ipv4Iff(h.address, n.address);
      Ipv4Iff(h.gateway, n.gateway);
      MacIff(h.mac, n.mac);
      Ipv4Iff(r.netmask, n.netmask);
    }
  }

  lemma ContractIsPlain(n: Network)
    requires Valid(n)
    ensures PlainHead(HeadOf(n)) && PlainRaw(RestOf(n).netmask)
  {
    if n.Enabled? {
      OctetsArePlain(n.address);
      OctetsArePlain(n.gateway);
      PairsArePlain(n.mac);
      OctetsArePlain(n.netmask);
    }
  }

  lemma NetworkPrinted(s: seq<byte>, n: Network, rest: seq<byte>)
    requires ParseNetwork(s) == NetworkRead(n, rest)
    ensures Valid(n) && s == PrintNetwork(n, rest)
  {
    HeadPrinted(s);
    var head := ParseHead(s);
    RestPrinted(head.rest);
    ContractMeans(head.head, ParseRest(head.rest).tail, n);
  }

  lemma PrintedNetwork(s: seq<byte>, n: Network, rest: seq<byte>)
    requires Valid(n) && s == PrintNetwork(n, rest)
    ensures ParseNetwork(s) == NetworkRead(n, rest)
  {
    ContractIsPlain(n);
    var h, r := HeadOf(n), RestOf(n);
    var tail := PrintRest(r, rest);
    PrintedHead(h, tail, s);
    PrintedRest(r, rest, tail);
    ContractOf(n, h, r);
    TwoParts(s, h, tail, r, n, rest);
  }

  lemma TwoParts(s: seq<byte>, h: Head, tail: seq<byte>, r: Rest, n: Network, rest: seq<byte>)
    requires ParseHead(s) == HeadRead(h, tail) && ParseRest(tail) == RestRead(r, rest) && Contract(h, r) == Some(n)
    ensures ParseNetwork(s) == NetworkRead(n, rest)
  {
  }

  /**
   The parser accepts exactly the printed forms of valid contracts: it inverts the printer,
   every contract has one text, and no other text is accepted.
   */
  lemma NetworkIff(s: seq<byte>, n: Network, rest: seq<byte>)
    ensures ParseNetwork(s) == NetworkRead(n, rest) <==> Valid(n) && s == PrintNetwork(n, rest)
  {
    if ParseNetwork(s) == NetworkRead(n, rest) {
      NetworkPrinted(s, n, rest);
    }
    if Valid(n) && s == PrintNetwork(n, rest) {
      PrintedNetwork(s, n, rest);
    }
  }

  // ----- The parser itself

  lemma {:induction false} OctetsWidth(v: seq<byte>)
    requires v != []
    ensures 0 < |PrintOctets(v)| <= 4 * |v| - 1
  {
    assert Decimals.Pow10(3) == 1000;
    Decimals.PrintWidth(v[0], 3);
    if |v| > 1 {
      OctetsWidth(v[1..]);
    }
  }

  lemma AddressWidth(s: seq<byte>)
    requires Ipv4(s).Spelled?
    ensures 0 < |s| <= 15
  {
    OctetsPrinted(s);
    OctetsWidth(Ipv4(s).value);
  }

  lemma DigitStep(t: seq<byte>, k: nat)
    requires k < |t| && Decimals.AllDigits(t[..k]) && Decimals.IsDigit(t[k])
    ensures Decimals.AllDigits(t[..k + 1])
    ensures Decimals.Value(t[..k + 1]) == Decimals.Value(t[..k]) * 10 + Decimals.DigitValue(t[k])
  {
    assert t[..k + 1][..k] == t[..k];
  }

  lemma OctetOverflows(t: seq<byte>, k: nat)
    requires k <= |t| && Decimals.AllDigits(t[..k]) && (k > 3 || Decimals.Value(t[..k]) > 255)
    ensures ReadOctet(t).NoOctet?
  {
    var n := Decimals.Leading(t);
    Decimals.LeadingAtLeast(t, k);
    Decimals.ValueMonotone(t[..n], k);
    assert t[..n][..k] == t[..k];
  }

  /** One more digit: either the text is no octet, or the sum goes on. */
  lemma OctetStep(t: seq<byte>, k: nat, sum: nat)
    requires k < |t| && Decimals.AllDigits(t[..k]) && sum == Decimals.Value(t[..k]) && Decimals.IsDigit(t[k])
    ensures var next := sum * 10 + Decimals.DigitValue(t[k]);
            if next > 255 || k >= 3 then ReadOctet(t).NoOctet?
            else Decimals.AllDigits(t[..k + 1]) && next == Decimals.Value(t[..k + 1])
  {
    DigitStep(t, k);
    if sum * 10 + Decimals.DigitValue(t[k]) > 255 || k >= 3 {
      OctetOverflows(t, k + 1);
    }
  }

  lemma OctetEnds(t: seq<byte>, k: nat, sum: nat)
    requires k <= |t| && k <= 3 && Decimals.AllDigits(t[..k]) && sum == Decimals.Value(t[..k]) <= 255
    requires k < |t| ==> !Decimals.IsDigit(t[k])
    ensures ReadOctet(t) == if k == 0 || (k > 1 && t[0] == '0' as int) then NoOctet else Octet(sum, t[k..])
  {
    Decimals.LeadingIs(t, k);
    assert k > 0 ==> t[..k][0] == t[0];
  }

  /** One octet that starts at `start`. */
  method ParseOctet(s: seq<byte>, start: nat) returns (ok: bool, value: byte, position: nat)
    requires start <= |s|
    ensures ok == ReadOctet(s[start..]).Octet?
    ensures ok ==> start < position <= |s| && ReadOctet(s[start..]) == Octet(value, s[position..])
  {
    ghost var t := s[start..];
    var sum: nat := 0;
    position := start;
    while position < |s| && Decimals.IsDigit(s[position])
      invariant start <= position <= |s| && position - start <= 3 && sum <= 255
      invariant Decimals.AllDigits(t[..position - start]) && sum == Decimals.Value(t[..position - start])
      decreases |s| - position
    {
      OctetStep(t, position - start, sum);
      sum := sum * 10 + Decimals.DigitValue(s[position]);
      if sum > 255 || position - start >= 3 {
        return false, 0, position;
      }
      position := position + 1;
    }
    OctetEnds(t, position - start, sum);
    assert t[position - start..] == s[position..] && (t != [] ==> t[0] == s[start]);
    if position == start || (position - start > 1 && s[start] == '0' as int) {
      return false, 0, position;
    }
    return true, sum, position;
  }

  /** What a text stands for, once some of its octets are read. */
  ghost function Resumed(done: seq<byte>, rest: seq<byte>): Spelled {
    var more := Octets(rest);
    if more.Misspelled? then Misspelled else Spelled(done + more.value)
  }

  ghost function Ended(done: seq<byte>, rest: seq<byte>): Spelled {
    if rest == [] then Spelled(done)
    else if rest[0] != DOT then Misspelled
    else Resumed(done, rest[1..])
  }

  lemma ResumeStep(done: seq<byte>, rest: seq<byte>, value: byte, next: seq<byte>)
    requires ReadOctet(rest) == Octet(value, next)
    ensures Resumed(done, rest) == Ended(done + [value], next)
  {
    if next != [] && next[0] == DOT && Octets(next[1..]).Spelled? {
      var more := Octets(next[1..]).value;
      assert (done + [value]) + more == done + ([value] + more);
    }
  }

  /** One octet more: the last one ends the address, and any other one needs a dot behind it. */
  lemma DottedStep(done: seq<byte>, rest: seq<byte>, value: byte, next: seq<byte>, all: Spelled)
    requires |done| < 4 && all == Resumed(done, rest) && ReadOctet(rest) == Octet(value, next)
    ensures |done| == 3 ==> all == Ended(done + [value], next)
    ensures |done| < 3 ==>
              if next != [] && next[0] == DOT then all == Resumed(done + [value], next[1..])
              else all.Misspelled? || !Quad(all.value)
  {
    ResumeStep(done, rest, value, next);
  }

  lemma DottedAt(s: seq<byte>, start: nat, position: nat, value: byte, done: seq<byte>, all: Spelled)
    requires start <= position <= |s| && |done| < 4 && all == Resumed(done, s[start..])
    requires ReadOctet(s[start..]) == Octet(value, s[position..])
    ensures |done| == 3 ==> all == Ended(done + [value], s[position..])
    ensures |done| < 3 ==>
              if position < |s| && s[position] == DOT then all == Resumed(done + [value], s[position + 1..])
              else all.Misspelled? || !Quad(all.value)
  {
    DottedStep(done, s[start..], value, s[position..], all);
    assert position < |s| ==> s[position..][1..] == s[position + 1..] && s[position..][0] == s[position];
  }

  lemma NoOctetStep(done: seq<byte>, rest: seq<byte>)
    requires ReadOctet(rest).NoOctet?
    ensures Resumed(done, rest).Misspelled?
  {
  }

  /** One octet and, unless it is the last one, the dot behind it. */
  method ParseDotted(s: seq<byte>, start: nat, index: nat, ghost done: seq<byte>, ghost all: Spelled)
    returns (ok: bool, value: byte, position: nat)
    requires start <= |s| && index < 4 && |done| == index && all == Resumed(done, s[start..])
    ensures !ok ==> all.Misspelled? || !Quad(all.value)
    ensures ok ==> position <= |s|
    ensures ok ==> all == if index < 3 then Resumed(done + [value], s[position..])
            else Ended(done + [value], s[position..])
  {
    hide Octets, ReadOctet;
    ok, value, position := ParseOctet(s, start);
    if !ok {
      NoOctetStep(done, s[start..]);
      return;
    }
    DottedAt(s, start, position, value, done, all);
    if index < 3 {
      if position >= |s| || s[position] != DOT {
        return false, value, position;
      }
      position := position + 1;
    }
  }

  method ParseIpv4Span(s: seq<byte>) returns (ok: bool, octets: seq<byte>)
    ensures ok == Ipv4(s).Spelled? && (ok ==> Ipv4(s) == Spelled(octets))
  {
    octets := [];
    if s == [] || |s| > 15 {
      if Ipv4(s).Spelled? {
        AddressWidth(s);
      }
      return false, octets;
    }
    var position := 0;
    ghost var all := Octets(s);
    ResumeNothing(s, all);
    for index := 0 to 4
      invariant 0 <= position <= |s| && |octets| == index
      invariant all == if index < 4 then Resumed(octets, s[position..]) else Ended(octets, s[position..])
    {
      var read, value, next := ParseDotted(s, position, index, octets, all);
      if !read {
        return false, octets;
      }
      octets, position := octets + [value], next;
    }
    AllRead(octets, s[position..], all);
    return position == |s|, octets;
  }

  lemma ResumeNothing(s: seq<byte>, all: Spelled)
    requires all == Octets(s)
    ensures all == Resumed([], s[0..])
  {
    assert s[0..] == s;
    assert all.Spelled? ==> [] + all.value == all.value;
  }

  /** After four octets, more text means more octets or an error. */
  lemma AllRead(octets: seq<byte>, rest: seq<byte>, all: Spelled)
    requires |octets| == 4 && all == Ended(octets, rest)
    ensures if rest == [] then all == Spelled(octets) else all.Misspelled? || !Quad(all.value)
  {
    if rest != [] && rest[0] == DOT && Octets(rest[1..]).Spelled? {
      OctetsPrinted(rest[1..]);
    }
  }

  ghost function Paired(done: seq<byte>, rest: seq<byte>): Spelled {
    var more := Pairs(rest);
    if more.Misspelled? then Misspelled else Spelled(done + more.value)
  }

  /** What one pair of digits adds, and when the text is refused. */
  lemma PairStep(done: seq<byte>, rest: seq<byte>, next: seq<byte>)
    requires |rest| >= 2 && next == if |rest| > 3 then rest[3..] else []
    ensures !JsonTexts.IsHex(rest[0]) || !JsonTexts.IsHex(rest[1]) ==> Paired(done, rest) == Misspelled
    ensures JsonTexts.IsHex(rest[0]) && JsonTexts.IsHex(rest[1]) ==>
              var longer := done + [16 * JsonTexts.HexValue(rest[0]) + JsonTexts.HexValue(rest[1])];
              Paired(done, rest) == if |rest| == 2 then Spelled(longer) else if rest[2] != COLON then Misspelled
                  else Paired(longer, next)
  {
    if |rest| > 2 && JsonTexts.IsHex(rest[0]) && JsonTexts.IsHex(rest[1]) && Pairs(rest[3..]).Spelled? {
      var b, more := 16 * JsonTexts.HexValue(rest[0]) + JsonTexts.HexValue(rest[1]), Pairs(rest[3..]).value;
      assert (done + [b]) + more == done + ([b] + more);
    }
  }

  method ParsePair(s: seq<byte>, at: nat, last: bool, ghost done: seq<byte>, ghost all: Spelled)
      returns (ok: bool, value: byte)
    requires (if last then at + 2 == |s| else at + 3 < |s|) && all == Paired(done, s[at..])
    ensures !ok ==> all.Misspelled?
    ensures ok ==> all == if last then Spelled(done + [value]) else Paired(done + [value], s[at + 3..])
  {
    ghost var rest := s[at..];
    PairStep(done, rest, if last then [] else s[at + 3..]);
    if !JsonTexts.IsHex(s[at]) || !JsonTexts.IsHex(s[at + 1]) {
      return false, 0;
    }
    if !last && s[at + 2] != COLON {
      return false, 0;
    }
    return true, 16 * JsonTexts.HexValue(s[at]) + JsonTexts.HexValue(s[at + 1]);
  }

  lemma PairNothing(s: seq<byte>, all: Spelled)
    requires all == Pairs(s)
    ensures all == Paired([], s[0..])
  {
    assert s[0..] == s;
    assert all.Spelled? ==> [] + all.value == all.value;
  }

  /** Fills `out` in place. */
  method ParseMacSpan(s: seq<byte>, out: array<byte>) returns (ok: bool)
    requires out.Length == 6
    modifies out
    ensures ok == Mac(s).Spelled? && (ok ==> Mac(s) == Spelled(out[..]))
  {
    if |s| != 17 {
      MacIff(s, if Mac(s).Spelled? then Mac(s).value else []);
      return false;
    }
    ghost var all := Pairs(s);
    PairNothing(s, all);
    var at := 0;
    for index := 0 to 6
      invariant at == 3 * index
      invariant all == if index < 6 then Paired(out[..index], s[at..]) else Spelled(out[..index])
    {
      ghost var done := out[..index];
      var read, value := ParsePair(s, at, index == 5, done, all);
      if !read {
        return false;
      }
      out[index] := value;
      assert out[..index + 1] == done + [value];
      at := at + 3;
    }
    assert out[..6] == out[..];
    return true;
  }

  lemma LiteralTwice(s: seq<byte>, first: byte, text: seq<byte>)
    ensures Literal(s, [first] + text) == if s != [] && s[0] == first then Literal(s[1..], text) else NoMatch
  {
    if s != [] && s[0] == first {
      assert s == [first] + s[1..];
      assert [first] + text <= s <==> text <= s[1..];
      if text <= s[1..] {
        assert s[1..][|text|..] == s[|text| + 1..];
      }
    }
  }

  /** One character, a key and a plain string. */
  method KeyedString(j: Parser, first: byte, name: seq<byte>) returns (ok: bool, raw: seq<byte>)
    requires j.Valid() && PlainRaw(name)
    modifies j
    ensures j.Valid()
    ensures var field := Field(old(j.Rest()), [first] + KeyText(name));
            ok == field.Text? && (ok ==> field == Text(raw, j.Rest()))
  {
    LiteralTwice(j.Rest(), first, KeyText(name));
    raw := [];
    ok := j.TakeChar(first);
    if ok {
      ok := j.Key(name);
    }
    if ok {
      ok, raw := j.PlainString();
    }
  }

  /** The head agrees with itself, whatever the rest says. */
  predicate Sound(h: Head) {
    if h.address == [] then h.gateway == [] && h.mac == [] && h.mode == NONE
    else
      && Ipv4(h.address).Spelled? && Ipv4(h.gateway).Spelled? && Mac(h.mac).Spelled?
      && (h.mode == NAT || h.mode == HOST_ONLY)
  }

  lemma ContractIsSound(h: Head, r: Rest)
    ensures Contract(h, r).Some? <==>
              && Sound(h) && (h.mode == NAT <==> r.nameservers != [])
              && (if h.address == [] then r.netmask == [] else Ipv4(r.netmask).Spelled?)
  {
    assert |NAT| == 3 && |HOST_ONLY| == 9 && |NONE| == 4;
  }

  lemma NetworkParts(s: seq<byte>, head: HeadRead, tail: RestRead, read: NetworkRead)
    requires read == ParseNetwork(s) && head == ParseHead(s) &&
             tail == if head.NoHead? then NoRest else ParseRest(head.rest)
    ensures read ==
            if head.NoHead? || tail.NoRest? || Contract(head.head, tail.tail).None? then NoNetwork
            else NetworkRead(Contract(head.head, tail.tail).value, tail.rest)
  {
  }

  /** Nameservers already read in front of the ones that follow. */
  ghost function Joined(done: seq<seq<byte>>, rest: seq<byte>): Texts {
    var more := Elements(rest);
    if more.NoTexts? then NoTexts else Texts(done + more.all, more.rest)
  }

  lemma JoinStep(done: seq<seq<byte>>, s: seq<byte>, raw: seq<byte>, after: seq<byte>)
    requires Plain(s) == Text(raw, after)
    ensures Joined(done, s) ==
            if Ipv4(raw).Misspelled? || after == [] then NoTexts
            else if after[0] == BRACKET then Texts(done + [raw], after[1..])
            else if after[0] != COMMA then NoTexts
            else Joined(done + [raw], after[1..])
  {
    if after != [] && after[0] == COMMA && Elements(after[1..]).Texts? {
      var more := Elements(after[1..]).all;
      assert (done + [raw]) + more == done + ([raw] + more);
    }
  }

  lemma ElementsNonempty(s: seq<byte>)
    requires Elements(s).Texts?
    ensures Elements(s).all != []
  {
    ElementsShape(s);
  }

  class GuestNetwork {
    var enabled: bool
    var address: seq<byte>
    var gateway: seq<byte>
    var netmask: seq<byte>
    const mac: array<byte>
    var nameservers: seq<seq<byte>>

    ghost predicate Valid()
    {
      mac.Length == 6
    }

    ghost function View(): Network
      reads this, mac
      requires Valid()
    {
      if enabled then Enabled(address, gateway, mac[..], nameservers != [], nameservers, netmask) else Disabled
    }

    constructor ()
      ensures Valid() && fresh(mac) && View() == Disabled && nameservers == []
    {
      enabled, address, gateway, netmask, nameservers := false, [], [], [], [];
      mac := new byte[6](_ => 0);
    }

    /** The address and the gateway; both are empty when the network is off. */
    method ParseAddressFields(j: Parser) returns (ok: bool, ghost r: AddressesRead)
      requires j.Valid()
      modifies this, j
      ensures j.Valid() && r == ParseAddresses(old(j.Rest()))
      ensures ok == (r.AddressesRead? && if r.address == [] then r.gateway == []
                else Ipv4(r.address).Spelled? && Ipv4(r.gateway).Spelled?)
      ensures ok ==> j.Rest() == r.rest && enabled == (r.address != [])
      ensures ok && enabled ==> Ipv4(r.address) == Spelled(address) && Ipv4(r.gateway) == Spelled(gateway)
    {
      r := ParseAddresses(j.Rest());
      var raw;
      ok, raw := KeyedString(j, BRACE, Ascii("address"));
      if !ok { return; }
      enabled := raw != [];
      if enabled {
        ok, address := ParseIpv4Span(raw);
        if !ok { return; }
      }
      ok, raw := KeyedString(j, COMMA, Ascii("gateway"));
      if !ok { return; }
      if enabled {
        ok, gateway := ParseIpv4Span(raw);
      } else {
        ok := raw == [];
      }
    }

    /** The interface, its hardware address and the mode. */
    method ParseDeviceFields(j: Parser) returns (ok: bool, outbound: bool, ghost r: DeviceRead)
      requires Valid() && j.Valid()
      modifies mac, j
      ensures j.Valid() && r == ParseDevice(old(j.Rest()))
      ensures ok == (r.DeviceRead? && if enabled then Mac(r.mac).Spelled? &&
              (r.mode == NAT || r.mode == HOST_ONLY) else r.mac == [] && r.mode == NONE)
      ensures ok ==> j.Rest() == r.rest && outbound == (r.mode == NAT)
      ensures ok && enabled ==> Mac(r.mac) == Spelled(mac[..])
    {
      r := ParseDevice(j.Rest());
      outbound := false;
      var raw;
      ok, raw := KeyedString(j, COMMA, Ascii("interface"));
      if !ok || raw != ETH0 {
        return false, outbound, r;
      }
      ok, raw := KeyedString(j, COMMA, Ascii("mac"));
      if !ok { return; }
      if enabled {
        ok := ParseMacSpan(raw, mac);
        if !ok { return; }
      } else if raw != [] {
        return false, outbound, r;
      }
      ok, raw := KeyedString(j, COMMA, Ascii("mode"));
      if !ok { return; }
      assert |NAT| == 3 && |HOST_ONLY| == 9 && |NONE| == 4;
      if enabled {
        outbound := raw == NAT;
        ok := outbound || raw == HOST_ONLY;
      } else {
        ok := raw == NONE;
      }
    }

    method ParseHeadFields(j: Parser) returns (ok: bool, outbound: bool, ghost r: HeadRead)
      requires Valid() && j.Valid()
      modifies this, mac, j
      ensures j.Valid() && r == ParseHead(old(j.Rest()))
      ensures ok == (r.HeadRead? && Sound(r.head))
      ensures ok ==> j.Rest() == r.rest && outbound == (r.head.mode == NAT) && enabled == (r.head.address != [])
      ensures ok && enabled ==> && Ipv4(r.head.address) == Spelled(address) && Ipv4(r.head.gateway) == Spelled(gateway)
                                && Mac(r.head.mac) == Spelled(mac[..])
    {
      r := ParseHead(j.Rest());
      outbound := false;
      ghost var first, second;
      ok, first := ParseAddressFields(j);
      if ok {
        ok, outbound, second := ParseDeviceFields(j);
      }
    }

    method ParseServers(j: Parser) returns (ok: bool)
      requires j.Valid()
      modifies this`nameservers, j
      ensures j.Valid() && ok == Servers(old(j.Rest())).Texts?
      ensures ok ==> Servers(old(j.Rest())) == Texts(nameservers, j.Rest())
    {
      ghost var s := j.Rest();
      nameservers := [];
      ok := j.TakeChar(BRACKET);
      if ok { return; }
      while true
        invariant j.Valid() && |nameservers| <= NAMESERVER_MAX
        invariant Elements(s) == Joined(nameservers, j.Rest())
        decreases |j.Rest()|
      {
        if |nameservers| >= NAMESERVER_MAX {
          if Elements(j.Rest()).Texts? {
            ElementsNonempty(j.Rest());
          }
          return false;
        }
        ghost var before := j.Rest();
        var raw, octets, closed;
        ok, raw := j.PlainString();
        if !ok { return; }
        JoinStep(nameservers, before, raw, j.Rest());
        ok, octets := ParseIpv4Span(raw);
        if !ok { return; }
        nameservers := nameservers + [raw];
        closed := j.TakeChar(BRACKET);
        if closed { return true; }
        ok := j.TakeChar(COMMA);
        if !ok { return; }
      }
    }

    method ParseResolverFields(j: Parser, outbound: bool) returns (ok: bool, ghost list: Texts)
      requires j.Valid()
      modifies this`nameservers, j
      ensures j.Valid() && list == ParseResolvers(old(j.Rest()))
      ensures ok == (list.Texts? && (outbound <==> list.all != []))
      ensures ok ==> list == Texts(nameservers, j.Rest())
    {
      list := ParseResolvers(j.Rest());
      ok := OpenServers(j);
      if ok {
        ok := ParseServers(j);
      }
      if ok {
        ok := outbound == (nameservers != []);
      }
    }

    method ParseMaskField(j: Parser) returns (ok: bool, ghost mask: Text)
      requires j.Valid()
      modifies this`netmask, j
      ensures j.Valid() && mask == ParseMask(old(j.Rest()))
      ensures ok == (mask.Text? && if enabled then Ipv4(mask.raw).Spelled? else mask.raw == [])
      ensures ok ==> j.Rest() == mask.rest
      ensures ok && enabled ==> Ipv4(mask.raw) == Spelled(netmask)
    {
      mask := ParseMask(j.Rest());
      var raw;
      ok, raw := KeyedString(j, COMMA, Ascii("netmask"));
      if !ok { return; }
      if enabled {
        ok, netmask := ParseIpv4Span(raw);
        if !ok { return; }
      } else if raw != [] {
        return false, mask;
      }
      LiteralTwice(j.Rest(), '}' as int, []);
      ok := j.TakeChar('}' as int);
    }

    method ParseRestFields(j: Parser, outbound: bool) returns (ok: bool, ghost r: RestRead)
      requires j.Valid()
      modifies this`nameservers, this`netmask, j
      ensures j.Valid() && r == ParseRest(old(j.Rest()))
      ensures ok == (r.RestRead? && (outbound <==> r.tail.nameservers != []) &&
              if enabled then Ipv4(r.tail.netmask).Spelled? else r.tail.netmask == [])
      ensures ok ==> j.Rest() == r.rest && nameservers == r.tail.nameservers
      ensures ok && enabled ==> Ipv4(r.tail.netmask) == Spelled(netmask)
    {
      r := ParseRest(j.Rest());
      ghost var list, mask;
      ok, list := ParseResolverFields(j, outbound);
      if ok {
        ok, mask := ParseMaskField(j);
      }
    }

    /** Both parts; on success the fields hold the contract that they agree on. */
    method ParseFields(j: Parser, ghost head: HeadRead, ghost tail: RestRead) returns (ok: bool)
      requires Valid() && j.Valid() && head == ParseHead(j.Rest())
      requires tail == if head.HeadRead? then ParseRest(head.rest) else NoRest
      modifies this, mac, j
      ensures j.Valid() && ok == (head.HeadRead? && tail.RestRead? && Contract(head.head, tail.tail).Some?)
      ensures ok ==> Contract(head.head, tail.tail) == Some(View()) && j.Rest() == tail.rest
    {
      var outbound;
      ghost var h, r;
      if head.HeadRead? && tail.RestRead? {
        ContractIsSound(head.head, tail.tail);
      }
      ok, outbound, h := ParseHeadFields(j);
      if ok {
        ok, r := ParseRestFields(j, outbound);
      }
    }

    /** On success the fields hold the contract that the text spells. */
    method Parse(j: Parser) returns (ok: bool)
      requires Valid() && j.Valid()
      modifies this, mac, j
      ensures j.Valid() && ok == ParseNetwork(old(j.Rest())).NetworkRead?
      ensures ok ==> ParseNetwork(old(j.Rest())) == NetworkRead(View(), j.Rest())
    {
      ghost var s := j.Rest();
      ghost var head := ParseHead(s);
      ghost var tail := if head.HeadRead? then ParseRest(head.rest) else NoRest;
      NetworkParts(s, head, tail, ParseNetwork(s));
      ok := ParseFields(j, head, tail);
    }

    /** The key of the resolver list and its opening bracket. */
    static method OpenServers(j: Parser) returns (ok: bool)
      requires j.Valid()
      modifies j
      ensures j.Valid()
      ensures var opening := Literal(old(j.Rest()), NAMESERVERS);
              ok == opening.Match? && (ok ==> opening == Match(j.Rest()))
    {
      ghost var s := j.Rest();
      ghost var text := KeyText(Ascii("nameservers"));
      assert NAMESERVERS == [COMMA] + (text + [OPEN]);
      LiteralTwice(s, COMMA, text + [OPEN]);
      ok := j.TakeChar(COMMA);
      if !ok { return; }
      ghost var t := j.Rest();
      assert text + [OPEN] <= t <==> (text <= t && [OPEN] <= t[|text|..]);
      ok := j.Key(Ascii("nameservers"));
      if !ok { return; }
      ok := j.TakeChar(OPEN);
      if ok {
        assert t[|text|..][1..] == t[|text| + 1..];
      }
    }
  }
}
