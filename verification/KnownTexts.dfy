/**
 The texts of the parsers, letter by letter: what the printers of the other modules write is spelled
 out here, so that the inverses proved there are inverses of these very texts.
 */
module KnownTexts {
  import opened Bytes
  import JsonTexts
  import Decimals
  import opened Parsers
  import opened Networks

  function Letter(c: char): byte
    requires c as int < 0x80
  {
    c as int
  }

  /** The ASCII bytes of a text. */
  function Spell(s: string): (r: seq<byte>)
    requires forall c | c in s :: c as int < 0x80
    ensures |r| == |s|
  {
    seq(|s|, i requires 0 <= i < |s| => assert s[i] in s; Letter(s[i]))
  }

  lemma DigitsAre(d: int)
    requires 0 <= d < 10
    ensures Decimals.Digit(d) == "0123456789"[d] as int
  {
  }

  lemma HexDigitsAre(v: int)
    requires 0 <= v < 16
    ensures JsonTexts.HexDigit(v) == "0123456789abcdef"[v] as int
  {
  }

  /** Section 7 of RFC 8259: the two-character escapes, and the six-character ones of the other control characters. */
  lemma EscapesAre(v: byte)
    ensures JsonTexts.PrintByte(v) ==
            if v == '"' as int then Spell("\\\"")
            else if v == '\\' as int then Spell("\\\\")
            else if v == 0x08 then Spell("\\b")
            else if v == 0x09 then Spell("\\t")
            else if v == 0x0a then Spell("\\n")
            else if v == 0x0c then Spell("\\f")
            else if v == 0x0d then Spell("\\r")
            else if v < 0x20 then Spell("\\u00") + Spell(["0123456789abcdef"[v / 16], "0123456789abcdef"[v % 16]])
            else [v]
  {
  }

  lemma SomeNumbers()
    ensures Decimals.Print(0) == Spell("0") && Decimals.Print(120) == Spell("120")
  {
    assert Decimals.Print(12) == Decimals.Print(1) + [Decimals.Digit(2)];
    assert Decimals.Print(120) == Decimals.Print(12) + [Decimals.Digit(0)];
  }

  // ----- The network contract

  lemma FixedTexts()
    ensures ADDRESS == Spell("{\"address\":")
    ensures GATEWAY == Spell(",\"gateway\":")
    ensures INTERFACE == Spell(",\"interface\":") && ETH0 == Spell("eth0")
    ensures MAC == Spell(",\"mac\":")
    ensures MODE == Spell(",\"mode\":")
    ensures NAMESERVERS == Spell(",\"nameservers\":[")
    ensures NETMASK == Spell(",\"netmask\":")
    ensures CLOSE == Spell("}")
    ensures NAT == Spell("nat") && HOST_ONLY == Spell("host-only") && NONE == Spell("none")
  {
  }

  /** A text in quotes behind its key. */
  function Item(key: string, raw: seq<byte>, rest: seq<byte>): seq<byte>
    requires forall c | c in key :: c as int < 0x80
  {
    Spell(key) + (Spell("\"") + (raw + (Spell("\"") + rest)))
  }

  function List(v: seq<seq<byte>>, rest: seq<byte>): seq<byte> {
    if v == [] then Spell("]") + rest
    else if |v| == 1 then Spell("\"") + (v[0] + (Spell("\"]") + rest))
    else Spell("\"") + (v[0] + (Spell("\",") + List(v[1..], rest)))
  }

  function ModeText(n: Network): seq<byte> {
    if n.Disabled? then Spell("none") else if n.outbound then Spell("nat") else Spell("host-only")
  }

  /** Four decimal numbers with dots between them. */
  function QuadText(v: seq<byte>): seq<byte>
    requires |v| == 4
  {
    Decimals.Print(v[0]) + (Spell(".") + (Decimals.Print(v[1]) + (Spell(".") + (Decimals.Print(v[2]) +
        (Spell(".") + Decimals.Print(v[3]))))))
  }

  function PairText(b: byte): seq<byte> {
    Spell(["0123456789abcdef"[b / 16], "0123456789abcdef"[b % 16]])
  }

  /** Six pairs of hexadecimal digits with colons between them. */
  function MacText(v: seq<byte>): seq<byte>
    requires |v| == 6
  {
    PairText(v[0]) + (Spell(":") + (PairText(v[1]) + (Spell(":") + (PairText(v[2]) + (Spell(":") + (PairText(v[3]) +
        (Spell(":") + (PairText(v[4]) + (Spell(":") + PairText(v[5]))))))))))
  }

  lemma QuadIs(v: seq<byte>)
    requires |v| == 4
    ensures PrintOctets(v) == QuadText(v)
  {
    var w, x, y := v[1..], v[2..], v[3..];
    assert w[1..] == x && x[1..] == y;
    hide Decimals.Print;
    assert [DOT] == Spell(".");
    hide Spell;
    assert PrintOctets(y) == Decimals.Print(v[3]);
    assert PrintOctets(x) == Decimals.Print(v[2]) + ([DOT] + PrintOctets(y));
    assert PrintOctets(w) == Decimals.Print(v[1]) + ([DOT] + PrintOctets(x));
  }

  lemma PairIs(b: byte)
    ensures [JsonTexts.HexDigit(b / 16), JsonTexts.HexDigit(b % 16)] == PairText(b)
  {
    HexDigitsAre(b / 16);
    HexDigitsAre(b % 16);
  }

  lemma PairsStep(v: seq<byte>)
    requires v != []
    ensures PrintPairs(v) == PairText(v[0]) + if |v| == 1 then [] else Spell(":") + PrintPairs(v[1..])
  {
    ColonIs();
    PairIs(v[0]);
    hide PairText, Spell, JsonTexts.HexDigit;
  }

  lemma ColonIs()
    ensures [COLON] == Spell(":")
  {
  }

  lemma MacIs(v: seq<byte>)
    requires |v| == 6
    ensures PrintPairs(v) == MacText(v)
  {
    var a, b, c := v[1..], v[2..], v[3..];
    var d, e := v[4..], v[5..];
    assert a[1..] == b && b[1..] == c && c[1..] == d && d[1..] == e;
    PairsStep(v);
    PairsStep(a);
    PairsStep(b);
    PairsStep(c);
    PairsStep(d);
    PairsStep(e);
    hide PrintPairs, PairText, Spell;
    assert PrintPairs(e) == PairText(v[5]);
  }

  lemma {:induction false} ListIs(v: seq<seq<byte>>, rest: seq<byte>)
    ensures PrintServers(v, rest) == List(v, rest)
    decreases |v|
  {
    assert [BRACKET] == Spell("]") && [JsonTexts.QUOTE] == Spell("\"");
    if |v| == 1 {
      assert [JsonTexts.QUOTE] + ([BRACKET] + rest) == Spell("\"]") + rest;
    } else if |v| > 1 {
      ListIs(v[1..], rest);
      assert [JsonTexts.QUOTE] + ([COMMA] + PrintServers(v[1..], rest)) == Spell("\",") + PrintServers(v[1..], rest);
    }
  }

  lemma ItemIs(key: string, prefix: seq<byte>, raw: seq<byte>, rest: seq<byte>)
    requires forall c | c in key :: c as int < 0x80
    requires prefix == Spell(key)
    ensures PrintField(prefix, raw, rest) == Item(key, raw, rest)
  {
    assert [JsonTexts.QUOTE] == Spell("\"");
  }

  /** The fields of the object from the address to the mode. */
  function HeadText(address: seq<byte>, gateway: seq<byte>, mac: seq<byte>, mode: seq<byte>,
                    rest: seq<byte>): seq<byte>
  {
    Item("{\"address\":", address,
    Item(",\"gateway\":", gateway,
    Item(",\"interface\":", Spell("eth0"),
    Item(",\"mac\":", mac,
    Item(",\"mode\":", mode, rest)))))
  }

  /** The fields from the resolvers to the end. */
  function RestText(nameservers: seq<seq<byte>>, netmask: seq<byte>, rest: seq<byte>): seq<byte> {
    Spell(",\"nameservers\":[") + List(nameservers, Item(",\"netmask\":", netmask, Spell("}") + rest))
  }

  lemma HeadIs(h: Head, rest: seq<byte>)
    ensures PrintHead(h, rest) == HeadText(h.address, h.gateway, h.mac, h.mode, rest)
  {
    FixedTexts();
    hide Spell, PrintField, Item, ADDRESS, GATEWAY, INTERFACE, MAC, MODE, ETH0;
    ItemIs(",\"mode\":", MODE, h.mode, rest);
    var e := PrintField(MODE, h.mode, rest);
    ItemIs(",\"mac\":", MAC, h.mac, e);
    var d := PrintField(MAC, h.mac, e);
    ItemIs(",\"interface\":", INTERFACE, ETH0, d);
    var c := PrintField(INTERFACE, ETH0, d);
    ItemIs(",\"gateway\":", GATEWAY, h.gateway, c);
    ItemIs("{\"address\":", ADDRESS, h.address, PrintField(GATEWAY, h.gateway, c));
  }

  lemma RestIs(r: Rest, rest: seq<byte>)
    ensures PrintRest(r, rest) == RestText(r.nameservers, r.netmask, rest)
  {
    FixedTexts();
    hide Spell, PrintField, Item, NAMESERVERS, NETMASK, CLOSE;
    ItemIs(",\"netmask\":", NETMASK, r.netmask, CLOSE + rest);
    ListIs(r.nameservers, PrintField(NETMASK, r.netmask, CLOSE + rest));
  }

  /** The whole text of a contract: its keys in their order, its addresses, its mode and its resolvers. */
  lemma NetworkText(n: Network, rest: seq<byte>)
    requires Valid(n)
    ensures PrintNetwork(n, rest) ==
            if n.Disabled? then HeadText([], [], [], Spell("none"), RestText([], [], rest))
            else HeadText(QuadText(n.address), QuadText(n.gateway), MacText(n.mac), ModeText(n),
                   RestText(n.nameservers, QuadText(n.netmask), rest))
  {
    FixedTexts();
    if n.Enabled? {
      QuadIs(n.address);
      QuadIs(n.gateway);
      QuadIs(n.netmask);
      MacIs(n.mac);
    }
    hide Spell, PrintHead, PrintRest, HeadText, RestText, PrintOctets, PrintPairs, QuadText, MacText, NAT, HOST_ONLY,
      NONE, ServerTexts;
    HeadIs(HeadOf(n), PrintRest(RestOf(n), rest));
    RestIs(RestOf(n), rest);
  }
}
