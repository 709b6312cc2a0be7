/**
 The canonical JSON strings of guest/stage1/init.c.

 `Print` is the one spelling of a byte string; `Scan` and `Decode` are what the parser
 accepts and what it stores.  Bit masks on bytes are written as quotients and remainders.
 */
module JsonTexts {
  import opened Bytes

  const QUOTE: byte := 0x22
  const BACKSLASH: byte := 0x5c

  // ----- UTF-8

  predicate Tail(b: byte) {
    0x80 <= b <= 0xbf
  }

  /** The width of the first character by the syntax table in section 4 of RFC 3629, or zero. */
  function Utf8Width(s: seq<byte>): (w: nat)
    ensures w <= |s|
  {
    if s == [] then 0
    else if s[0] <= 0x7f then 1
    else if 0xc2 <= s[0] <= 0xdf then
      if |s| >= 2 && Tail(s[1]) then 2 else 0
    else if 0xe0 <= s[0] <= 0xef then
      var low := if s[0] == 0xe0 then 0xa0 else 0x80;
      var high := if s[0] == 0xed then 0x9f else 0xbf;
      if |s| >= 3 && low <= s[1] <= high && Tail(s[2]) then 3 else 0
    else if 0xf0 <= s[0] <= 0xf4 then
      var low := if s[0] == 0xf0 then 0x90 else 0x80;
      var high := if s[0] == 0xf4 then 0x8f else 0xbf;
      if |s| >= 4 && low <= s[1] <= high && Tail(s[2]) && Tail(s[3]) then 4 else 0
    else 0
  }

  /** Well-formed UTF-8 in the sense of section 4 of RFC 3629. */
  predicate WellFormed(s: seq<byte>)
    decreases |s|
  {
    s == [] || (Utf8Width(s) > 0 && WellFormed(s[Utf8Width(s)..]))
  }

  predicate Continuation(b: int) {
    b / 64 == 2
  }

  /** The program's own test: it decodes a code point and looks at its range. */
  function Advance(s: seq<byte>): (w: nat)
    requires s != []
    ensures w <= |s|
  {
    var a: int := s[0];
    if a < 0x80 then (if a >= 0x20 then 1 else 0)
    else if 0xc2 <= a <= 0xdf && |s| > 1 && Continuation(s[1]) then 2
    else if 0xe0 <= a <= 0xef && |s| > 2 && Continuation(s[1]) && Continuation(s[2]) then
      var point := Point3(a, s[1], s[2]);
      if point < 0x800 || 0xd800 <= point <= 0xdfff then 0 else 3
    else if 0xf0 <= a <= 0xf4 && |s| > 3 && Continuation(s[1]) && Continuation(s[2]) && Continuation(s[3]) then
      var point := Point4(a, s[1], s[2], s[3]);
      if point < 0x10000 || point > 0x10ffff then 0 else 4
    else 0
  }

  function Point3(a: int, b: int, c: int): int {
    a % 16 * 4096 + b % 64 * 64 + c % 64
  }

  function Point4(a: int, b: int, c: int, d: int): int {
    a % 8 * 262144 + b % 64 * 4096 + c % 64 * 64 + d % 64
  }

  /** Apart from control characters, the range test accepts exactly the RFC's table. */
  lemma AdvanceIsUtf8(s: seq<byte>)
    requires s != []
    ensures Advance(s) == if s[0] < 0x20 then 0 else Utf8Width(s)
  {
    if 0xe0 <= s[0] <= 0xef && |s| > 2 && Tail(s[1]) && Tail(s[2]) {
      Three(s[0], s[1], s[2]);
    } else if 0xf0 <= s[0] <= 0xf4 && |s| > 3 && Tail(s[1]) && Tail(s[2]) && Tail(s[3]) {
      Four(s[0], s[1], s[2], s[3]);
    }
  }

  lemma Three(a: int, b: int, c: int)
    requires 0xe0 <= a <= 0xef && 0x80 <= b <= 0xbf && 0x80 <= c <= 0xbf
    ensures Point3(a, b, c) == (a - 0xe0) * 4096 + (b - 0x80) * 64 + (c - 0x80)
  {
  }

  lemma Four(a: int, b: int, c: int, d: int)
    requires 0xf0 <= a <= 0xf4 && 0x80 <= b <= 0xbf && 0x80 <= c <= 0xbf && 0x80 <= d <= 0xbf
    ensures Point4(a, b, c, d) == (a - 0xf0) * 262144 + (b - 0x80) * 4096 + (c - 0x80) * 64 + (d - 0x80)
  {
  }

  // ----- Escapes

  predicate IsHex(b: byte) {
    '0' as int <= b <= '9' as int || 'a' as int <= b <= 'f' as int
  }

  function HexValue(b: byte): (v: int)
    requires IsHex(b)
    ensures 0 <= v < 16
  {
    if b <= '9' as int then b - '0' as int else b - 'a' as int + 10
  }

  function HexDigit(v: int): (b: byte)
    requires 0 <= v < 16
    ensures IsHex(b) && HexValue(b) == v
  {
    if v < 10 then '0' as int + v else 'a' as int + v - 10
  }

  lemma HexUnique(b: byte)
    requires IsHex(b)
    ensures HexDigit(HexValue(b)) == b
  {
  }

  /** The bytes that have a two-character escape, and its second character. */
  function Short(v: byte): Option<byte> {
    if v == QUOTE || v == BACKSLASH then Some(v)
    else if v == 8 then Some('b' as int)
    else if v == 9 then Some('t' as int)
    else if v == 10 then Some('n' as int)
    else if v == 12 then Some('f' as int)
    else if v == 13 then Some('r' as int)
    else None
  }

  function Unshort(e: byte): Option<byte> {
    if e == QUOTE || e == BACKSLASH then Some(e)
    else if e == 'b' as int then Some(8)
    else if e == 't' as int then Some(9)
    else if e == 'n' as int then Some(10)
    else if e == 'f' as int then Some(12)
    else if e == 'r' as int then Some(13)
    else None
  }

  // ----- The canonical printer

  function PrintByte(v: byte): seq<byte> {
    match Short(v)
    case Some(e) => [BACKSLASH, e]
    case None =>
      if v < 0x20 then [BACKSLASH, 'u' as int, '0' as int, '0' as int, HexDigit(v / 16), HexDigit(v % 16)] else [v]
  }

  function Print(v: seq<byte>): seq<byte> {
    if v == [] then [] else PrintByte(v[0]) + Print(v[1..])
  }

  // ----- What the parser accepts

  /** One unit of the raw text: how many bytes it takes and what it stands for. */
  datatype Part = Bad | Part(width: nat, value: seq<byte>)

  function Escape(s: seq<byte>, nul: bool): Part
    requires s != []
  {
    if |s| < 2 then Bad
    else if Unshort(s[1]).Some? then Part(2, [Unshort(s[1]).value])
    else if s[1] != 'u' as int || |s| < 6 || s[2] != '0' as int || s[3] != '0' as int || !IsHex(s[4]) ||
        !IsHex(s[5]) then Bad
    else
      var v := HexValue(s[4]) * 16 + HexValue(s[5]);
      if v >= 0x20 || Short(v).Some? || (!nul && v == 0) then Bad else Part(6, [v])
  }

  function First(s: seq<byte>, nul: bool): (u: Part)
    requires s != []
    ensures u.Part? ==> 0 < u.width <= |s|
  {
    if s[0] == BACKSLASH then Escape(s, nul)
    else if Advance(s) == 0 || (!nul && s[0] == 0) then Bad
    else Part(Advance(s), s[..Advance(s)])
  }

  /** How far the raw text reaches up to its closing quote, and how many bytes it stands for. */
  datatype Scanned = Rejected | Scanned(length: nat, decoded: nat)

  function Scan(s: seq<byte>, nul: bool): (r: Scanned)
    ensures r.Scanned? ==> r.length < |s| && s[r.length] == QUOTE
    decreases |s|
  {
    if s == [] then Rejected
    else if s[0] == QUOTE then Scanned(0, 0)
    else
      var u := First(s, nul);
      if u.Bad? then Rejected
      else
        var r := Scan(s[u.width..], nul);
        if r.Rejected? then Rejected else Scanned(u.width + r.length, |u.value| + r.decoded)
  }

  /** The bytes that a raw text stores, one escape or byte at a time; NUL is refused. */
  function Decode(raw: seq<byte>): Option<seq<byte>>
    decreases |raw|
  {
    if raw == [] then Some([])
    else
      var u := DecodeUnit(raw);
      if u.Bad? then None
      else match Decode(raw[u.width..])
        case None => None
        case Some(rest) => Some(u.value + rest)
  }

  function DecodeUnit(raw: seq<byte>): (u: Part)
    requires raw != []
    ensures u.Part? ==> 0 < u.width <= |raw| && |u.value| == 1
  {
    if raw[0] != BACKSLASH then (if raw[0] == 0 then Bad else Part(1, raw[..1]))
    else if |raw| < 2 then Bad
    else if Unshort(raw[1]).Some? then Part(2, [Unshort(raw[1]).value])
    else if raw[1] != 'u' as int || |raw| < 6 || raw[2] != '0' as int || raw[3] != '0' as int ||
            !IsHex(raw[4]) || !IsHex(raw[5]) then Bad
    else
      var v := HexValue(raw[4]) * 16 + HexValue(raw[5]);
      if v == 0 then Bad else Part(6, [v])
  }

  /** The values that the parser can produce. */
  predicate Storable(v: seq<byte>) {
    WellFormed(v) && 0 !in v
  }

  // ----- Printing and parsing are inverse

  /** Bytes above ASCII are printed as they are. */
  lemma {:induction false} PrintHigh(head: seq<byte>, rest: seq<byte>)
    requires forall i | 0 <= i < |head| :: head[i] >= 0x80
    ensures Print(head + rest) == head + Print(rest)
  {
    if head == [] {
      assert head + rest == rest;
    } else {
      var tail := head[1..];
      PrintHigh(tail, rest);
      assert (head + rest)[1..] == tail + rest && PrintByte(head[0]) == [head[0]];
      Associative([head[0]], tail, Print(rest));
      assert [head[0]] + tail == head;
    }
  }

  /** The table's tails are all above ASCII. */
  lemma WidthBytes(s: seq<byte>)
    requires s != [] && Utf8Width(s) > 1
    ensures forall i | 0 <= i < Utf8Width(s) :: s[i] >= 0x80
  {
  }

  lemma WidthStable(s: seq<byte>, rest: seq<byte>, more: seq<byte>)
    requires s == s[..Utf8Width(s)] + rest && s != [] && Utf8Width(s) > 0
    ensures Utf8Width(s[..Utf8Width(s)] + more) == Utf8Width(s)
  {
  }

  lemma PrintedByteScans(c: byte, more: seq<byte>)
    requires 0 < c < 0x80
    ensures First(PrintByte(c) + more, false) == Part(|PrintByte(c)|, [c])
  {
    var s := PrintByte(c) + more;
    if Short(c).Some? {
      assert s[1] == Short(c).value;
    } else if c < 0x20 {
      assert s[4] == HexDigit(c / 16) && s[5] == HexDigit(c % 16);
    } else {
      assert s[..1] == [c];
    }
  }

  lemma PrintedByteDecodes(c: byte, more: seq<byte>)
    requires 0 < c
    ensures DecodeUnit(PrintByte(c) + more) == Part(|PrintByte(c)|, [c])
  {
    var s := PrintByte(c) + more;
    if Short(c).Some? {
      assert s[1] == Short(c).value;
    } else if c < 0x20 {
      assert s[4] == HexDigit(c / 16) && s[5] == HexDigit(c % 16);
    } else {
      assert s[..1] == [c];
    }
  }

  /** One unit, then the rest. */
  lemma ScanStep(s: seq<byte>, nul: bool, u: Part, more: Scanned)
    requires s != [] && s[0] != QUOTE && u == First(s, nul) && (u.Part? ==> more == Scan(s[u.width..], nul))
    ensures Scan(s, nul) == if u.Bad? || more.Rejected? then Rejected
            else Scanned(u.width + more.length, |u.value| + more.decoded)
  {
  }

  lemma ScanUnit(s: seq<byte>, w: nat, value: seq<byte>, n: nat, d: nat)
    requires s != [] && s[0] != QUOTE && w <= |s| && First(s, false) == Part(w, value)
    requires Scan(s[w..], false) == Scanned(n, d)
    ensures Scan(s, false) == Scanned(w + n, |value| + d)
  {
  }

  lemma HighScans(head: seq<byte>, tail: seq<byte>)
    requires head != [] && head[0] >= 0x80 && Utf8Width(head + tail) == |head|
    ensures First(head + tail, false) == Part(|head|, head)
  {
    AdvanceIsUtf8(head + tail);
    assert (head + tail)[..|head|] == head;
  }

  lemma MultibyteScans(v: seq<byte>, head: seq<byte>, rest: seq<byte>, tail: seq<byte>)
    requires v != [] && v[0] >= 0x80 && Utf8Width(v) > 0 && head == v[..Utf8Width(v)] && rest == v[Utf8Width(v)..]
    ensures First(head + tail, false) == Part(|head|, head) && Print(v) == head + Print(rest)
  {
    assert v == head + rest;
    WidthBytes(v);
    PrintHigh(head, rest);
    WidthStable(v, rest, tail);
    HighScans(head, tail);
  }

  lemma AsciiScans(v: seq<byte>, head: seq<byte>, rest: seq<byte>, tail: seq<byte>)
    requires v != [] && 0 < v[0] < 0x80 && head == PrintByte(v[0]) && rest == v[1..]
    ensures First(head + tail, false) == Part(|head|, [v[0]]) && Print(v) == head + Print(rest)
  {
    PrintedByteScans(v[0], tail);
  }

  /** The printed first character of a storable value is the first unit that the parser sees. */
  lemma PrintedUnitScans(v: seq<byte>, rest: seq<byte>, tail: seq<byte>, n: nat, d: nat) returns (head: seq<byte>)
    requires v != [] && v[0] != 0 && Utf8Width(v) > 0 && rest == v[Utf8Width(v)..] && Scan(tail, false) == Scanned(n, d)
    ensures Print(v) == head + Print(rest)
    ensures Scan(head + tail, false) == Scanned(|head| + n, Utf8Width(v) + d)
  {
    var value: seq<byte>;
    if v[0] < 0x80 {
      head, value := PrintByte(v[0]), [v[0]];
      AsciiScans(v, head, rest, tail);
    } else {
      head := v[..Utf8Width(v)];
      value := head;
      MultibyteScans(v, head, rest, tail);
    }
    assert (head + tail)[|head|..] == tail;
    ScanUnit(head + tail, |head|, value, n, d);
  }

  /** Every storable value has an accepted spelling, and its reported length is its length. */
  lemma {:induction false} PrintScans(v: seq<byte>, p: seq<byte>, end: seq<byte>)
    requires Storable(v) && p == Print(v) && end != [] && end[0] == QUOTE
    ensures Scan(p + end, false) == Scanned(|p|, |v|)
    decreases |v|
  {
    if v == [] {
      assert p + end == end;
      ScanEnd(end);
    } else {
      var more := v[Utf8Width(v)..];
      var q := Print(more);
      PrintScans(more, q, end);
      var head := PrintedUnitScans(v, more, q + end, |q|, |more|);
      Associative(head, q, end);
    }
  }

  lemma ScanEnd(s: seq<byte>)
    requires s != [] && s[0] == QUOTE
    ensures Scan(s, false) == Scanned(0, 0)
  {
  }

  lemma {:induction false} PrintDecodes(v: seq<byte>)
    requires 0 !in v
    ensures Decode(Print(v)) == Some(v)
  {
    if v != [] {
      PrintedByteDecodes(v[0], Print(v[1..]));
      PrintDecodes(v[1..]);
      assert Print(v)[|PrintByte(v[0])|..] == Print(v[1..]);
      assert v == [v[0]] + v[1..];
    }
  }

  // ----- Every accepted text is canonical

  /** An accepted unit is the printed form of what it stands for. */
  lemma FirstIsPrinted(s: seq<byte>)
    requires s != [] && s[0] != QUOTE && First(s, false).Part?
    ensures var u := First(s, false);
            && s[..u.width] == Print(u.value) && u.value != [] && 0 !in u.value
            && Utf8Width(u.value) == |u.value|
            && (s[0] != BACKSLASH ==> u.value == s[..u.width])
  {
    var u := First(s, false);
    if s[0] == BACKSLASH {
      assert Print(u.value) == PrintByte(u.value[0]) + Print([]);
      if u.width == 6 {
        HexUnique(s[4]);
        HexUnique(s[5]);
      }
      assert s[..u.width] == PrintByte(u.value[0]);
    } else {
      AdvanceIsUtf8(s);
      assert s == s[..u.width] + s[u.width..];
      WidthStable(s, s[u.width..], []);
      assert s[..u.width] + [] == u.value;
      if u.width == 1 {
        assert Print(u.value) == PrintByte(s[0]) + Print([]);
      } else {
        WidthBytes(u.value);
        PrintHigh(u.value, []);
        assert u.value + [] == u.value;
      }
    }
  }

  lemma {:induction false} PrintAppend(a: seq<byte>, b: seq<byte>)
    ensures Print(a + b) == Print(a) + Print(b)
  {
    if a == [] {
      assert a + b == b;
    } else {
      assert (a + b)[1..] == a[1..] + b;
      PrintAppend(a[1..], b);
    }
  }

  lemma WellFormedCons(u: seq<byte>, v: seq<byte>)
    requires u != [] && Utf8Width(u) == |u| && WellFormed(v)
    ensures WellFormed(u + v)
  {
    assert u == u[..|u|] + [];
    WidthStable(u, [], v);
    assert u[..|u|] + v == u + v;
    assert (u + v)[|u|..] == v;
  }

  /**
   Whatever text the parser accepts is the canonical spelling of exactly one storable value,
   which is what the decoder stores, with the length that the parser reported.
   */
  lemma {:induction false} ScanIsCanonical(s: seq<byte>) returns (v: seq<byte>)
    requires Scan(s, false).Scanned?
    ensures var Scanned(n, decoded) := Scan(s, false);
            Storable(v) && s[..n] == Print(v) && |v| == decoded && Decode(s[..n]) == Some(v)
    decreases |s|
  {
    var n := Scan(s, false).length;
    if s[0] == QUOTE {
      v := [];
    } else {
      var u := First(s, false);
      FirstIsPrinted(s);
      var rest := ScanIsCanonical(s[u.width..]);
      v := u.value + rest;
      WellFormedCons(u.value, rest);
      PrintAppend(u.value, rest);
      SplitPrefix(s, u.width, n);
    }
    PrintDecodes(v);
  }

  lemma SplitPrefix(s: seq<byte>, i: nat, n: nat)
    requires i <= n <= |s|
    ensures s[..n] == s[..i] + s[i..][..n - i]
  {
  }

  /** Two accepted texts that store the same value are the same text. */
  lemma OneSpelling(s: seq<byte>, t: seq<byte>)
    requires Scan(s, false).Scanned? && Scan(t, false).Scanned?
    requires Decode(s[..Scan(s, false).length]) == Decode(t[..Scan(t, false).length])
    ensures s[..Scan(s, false).length] == t[..Scan(t, false).length]
  {
    var v := ScanIsCanonical(s);
    var w := ScanIsCanonical(t);
  }

  /** Printing, then parsing and storing, gives back every storable value. */
  lemma PrintedTextRoundTrips(v: seq<byte>, rest: seq<byte>)
    requires Storable(v)
    ensures Scan(Print(v) + ([QUOTE] + rest), false) == Scanned(|Print(v)|, |v|)
    ensures Decode((Print(v) + ([QUOTE] + rest))[..|Print(v)|]) == Some(v)
  {
    PrintScans(v, Print(v), [QUOTE] + rest);
    PrintDecodes(v);
    assert (Print(v) + ([QUOTE] + rest))[..|Print(v)|] == Print(v);
  }

  lemma SplitAt(s: seq<byte>, n: nat, prefix: seq<byte>, rest: seq<byte>)
    requires n < |s| && s[n] == QUOTE && prefix == s[..n] && rest == s[n + 1..]
    ensures s == prefix + ([QUOTE] + rest)
  {
  }

  lemma PrintedIsAccepted(s: seq<byte>, v: seq<byte>, rest: seq<byte>)
    requires Storable(v) && s == Print(v) + ([QUOTE] + rest)
    ensures Scan(s, false).Scanned?
  {
    PrintScans(v, Print(v), [QUOTE] + rest);
  }

  lemma AcceptedIsPrinted(s: seq<byte>) returns (v: seq<byte>, rest: seq<byte>)
    requires Scan(s, false).Scanned?
    ensures Storable(v) && s == Print(v) + ([QUOTE] + rest)
  {
    var n := Scan(s, false).length;
    v := ScanIsCanonical(s);
    rest := s[n + 1..];
    SplitAt(s, n, Print(v), rest);
  }

  /** A text is accepted exactly when it is the printed form of a storable value and a quote. */
  lemma AcceptedExactly(s: seq<byte>)
    ensures Scan(s, false).Scanned? <==> exists v, rest :: Storable(v) && s == Print(v) + ([QUOTE] + rest)
  {
    if Scan(s, false).Scanned? {
      var _, _ := AcceptedIsPrinted(s);
    }
    if v, rest :| Storable(v) && s == Print(v) + ([QUOTE] + rest) {
      PrintedIsAccepted(s, v, rest);
    }
  }

  /** One decoded byte, then the rest. */
  lemma DecodeStep(raw: seq<byte>, w: nat, value: byte, more: Option<seq<byte>>)
    requires raw != [] && DecodeUnit(raw) == Part(w, [value]) && more == Decode(raw[w..])
    ensures Decode(raw) == if more.None? then None else Some([value] + more.value)
  {
  }
}
