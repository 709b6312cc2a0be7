/** The cursor of guest/stage1/init.c: it only moves forward over a text that does not change. */
module Parsers {
  import opened Bytes
  import JsonTexts
  import Decimals

  const PROCESS_MAX := 0x40000

  class Parser {
    const text: seq<byte>
    var p: nat

    ghost predicate Valid()
      reads this
    {
      p <= |text|
    }

    /** What is still to be read. */
    ghost function Rest(): seq<byte>
      reads this
      requires Valid()
    {
      text[p..]
    }

    constructor (text: seq<byte>)
      ensures Valid() && Rest() == text && this.text == text
    {
      this.text, p := text, 0;
    }

    method TakeChar(c: byte) returns (ok: bool)
      requires Valid()
      modifies this
      ensures Valid() && ok == (old(Rest()) != [] && old(Rest())[0] == c)
      ensures Rest() == if ok then old(Rest())[1..] else old(Rest())
    {
      if p >= |text| || text[p] != c {
        return false;
      }
      p := p + 1;
      return true;
    }

    /** Skips one escape; the cursor stands on its backslash. */
    method Escape(nul: bool) returns (ok: bool)
      requires Valid() && Rest() != [] && Rest()[0] == JsonTexts.BACKSLASH
      modifies this
      ensures Valid() && ok == JsonTexts.Escape(old(Rest()), nul).Part?
      ensures ok ==> p == old(p) + JsonTexts.Escape(old(Rest()), nul).width
      ensures ok ==> |JsonTexts.Escape(old(Rest()), nul).value| == 1
    {
      ghost var s := Rest();
      p := p + 1;
      if p >= |text| {
        return false;
      }
      var e := text[p];
      p := p + 1;
      assert s[1] == e && |text| - p == |s| - 2;
      if e == JsonTexts.QUOTE || e == JsonTexts.BACKSLASH || e == 'b' as int || e == 'f' as int ||
         e == 'n' as int || e == 'r' as int || e == 't' as int {
        return true;
      }
      if e != 'u' as int || |text| - p < 4 || text[p] != '0' as int || text[p + 1] != '0' as int ||
         !JsonTexts.IsHex(text[p + 2]) || !JsonTexts.IsHex(text[p + 3]) {
        return false;
      }
      assert s[4] == text[p + 2] && s[5] == text[p + 3];
      var value := JsonTexts.HexValue(text[p + 2]) * 16 + JsonTexts.HexValue(text[p + 3]);
      if value >= 0x20 || value == 8 || value == 9 || value == 10 || value == 12 || value == 13 ||
          (!nul && value == 0) {
        return false;
      }
      p := p + 4;
      return true;
    }

    /** Skips one escape or one character; `step` is what it adds to the decoded length. */
    method NextUnit(nul: bool) returns (ok: bool, step: nat)
      requires Valid() && Rest() != [] && Rest()[0] != JsonTexts.QUOTE
      modifies this
      ensures Valid() && (p > old(p) || !ok)
      ensures !ok ==> JsonTexts.Scan(old(Rest()), nul).Rejected?
      ensures ok ==> var was, now := JsonTexts.Scan(old(Rest()), nul), JsonTexts.Scan(Rest(), nul);
                     if now.Rejected? then was.Rejected?
                     else was == JsonTexts.Scanned(p - old(p) + now.length, step + now.decoded)
    {
      ghost var s, before := Rest(), p;
      ghost var u := JsonTexts.First(s, nul);
      JsonTexts.ScanStep(s, nul, u, if u.Part? then JsonTexts.Scan(s[u.width..], nul) else JsonTexts.Rejected);
      if text[p] == JsonTexts.BACKSLASH {
        ok := Escape(nul);
        step := 1;
        if !ok {
          return;
        }
      } else {
        step := Utf8Advance();
        if step == 0 || (!nul && text[p] == 0) {
          return false, step;
        }
        p := p + step;
      }
      assert u.Part? && u.width == p - before && |u.value| == step;
      assert Rest() == s[u.width..];
      return true, step;
    }

    /** A string: the span of its raw text, and how many bytes it stands for. */
    method JsonString(nul: bool) returns (ok: bool, start: nat, size: nat, decoded: nat)
      requires Valid()
      modifies this
      ensures Valid() && ok == String(old(Rest()), nul).Scanned?
      ensures ok ==> && start == old(p) + 1 && size == String(old(Rest()), nul).length
                     && decoded == String(old(Rest()), nul).decoded && p == start + size + 1
    {
      start, size, decoded := 0, 0, 0;
      var quoted := TakeChar(JsonTexts.QUOTE);
      if !quoted {
        return false, 0, 0, 0;
      }
      start := p;
      ghost var all := JsonTexts.Scan(Rest(), nul);
      while p < |text| && text[p] != JsonTexts.QUOTE
        invariant Valid() && start <= p
        invariant var now := JsonTexts.Scan(Rest(), nul);
                  if now.Rejected? then all.Rejected?
                  else all == JsonTexts.Scanned(p - start + now.length, decoded + now.decoded)
        decreases |text| - p
      {
        var unit, step := NextUnit(nul);
        if !unit {
          return false, 0, 0, 0;
        }
        decoded := decoded + step;
      }
      if p >= |text| {
        return false, 0, 0, 0;
      }
      size := p - start;
      p := p + 1;
      return true, start, size, decoded;
    }

    /** The width of the character under the cursor, or zero. */
    method Utf8Advance() returns (width: nat)
      requires Valid() && Rest() != []
      ensures width == JsonTexts.Advance(Rest())
    {
      ghost var s := Rest();
      var n := |text| - p;
      var a: int := text[p];
      if a < 0x80 {
        return if a >= 0x20 then 1 else 0;
      }
      if 0xc2 <= a <= 0xdf && n > 1 && text[p + 1] / 64 == 2 {
        return 2;
      }
      if 0xe0 <= a <= 0xef && n > 2 && text[p + 1] / 64 == 2 && text[p + 2] / 64 == 2 {
        assert s[1] == text[p + 1] && s[2] == text[p + 2];
        var point := JsonTexts.Point3(a, text[p + 1], text[p + 2]);
        return if point < 0x800 || 0xd800 <= point <= 0xdfff then 0 else 3;
      }
      if 0xf0 <= a <= 0xf4 && n > 3 && text[p + 1] / 64 == 2 && text[p + 2] / 64 == 2 && text[p + 3] / 64 == 2 {
        assert s[1] == text[p + 1] && s[2] == text[p + 2] && s[3] == text[p + 3];
        var point := JsonTexts.Point4(a, text[p + 1], text[p + 2], text[p + 3]);
        return if point < 0x10000 || point > 0x10ffff then 0 else 4;
      }
      return 0;
    }

    /** A string without escapes and without non-ASCII bytes. */
    method PlainString() returns (ok: bool, raw: seq<byte>)
      requires Valid()
      modifies this
      ensures Valid()
      ensures ok == Plain(old(Rest())).Text? && (ok ==> Plain(old(Rest())) == Text(raw, Rest()))
    {
      ghost var s := Rest();
      var start, size, decoded;
      ok, start, size, decoded := JsonString(false);
      raw := [];
      if !ok {
        PlainIsScanned(s);
        return;
      }
      raw := text[start..start + size];
      assert s[1..size + 1] == raw && s[size + 2..] == Rest();
      PlainSpan(s, raw);
      ok := Unescaped(raw);
    }

    static method Unescaped(raw: seq<byte>) returns (ok: bool)
      ensures ok == forall k | 0 <= k < |raw| :: raw[k] != JsonTexts.BACKSLASH && raw[k] < 0x80
    {
      var i := 0;
      while i < |raw|
        invariant 0 <= i <= |raw|
        invariant forall k | 0 <= k < i :: raw[k] != JsonTexts.BACKSLASH && raw[k] < 0x80
      {
        if raw[i] == JsonTexts.BACKSLASH || raw[i] >= 0x80 {
          return false;
        }
        i := i + 1;
      }
      return true;
    }

    /** A key that is written without escapes, and the colon behind it. */
    method Key(expected: seq<byte>) returns (ok: bool)
      requires Valid() && PlainRaw(expected)
      modifies this
      ensures Valid()
      ensures ok == Literal(old(Rest()), KeyText(expected)).Match?
      ensures ok ==> Literal(old(Rest()), KeyText(expected)) == Match(Rest())
    {
      ghost var s := Rest();
      var start, size, decoded;
      ok, start, size, decoded := JsonString(false);
      KeyIsLiteral(s, expected);
      if !ok || size != |expected| || text[start..start + size] != expected {
        assert ok ==> s[1..][..size] == text[start..start + size];
        return false;
      }
      assert s[1..][..size] == expected && s[size + 2..] == Rest();
      ok := TakeChar(':' as int);
    }

    method UintValue() returns (ok: bool, value: nat)
      requires Valid()
      modifies this
      ensures Valid() && ok == Decimals.Parse(old(Rest())).Parsed?
      ensures p >= old(p)
      ensures ok ==> Decimals.Parse(old(Rest())) == Decimals.Parsed(value, p - old(p))
    {
      ghost var s := Rest();
      var start := p;
      value := 0;
      if p >= |text| || !Decimals.IsDigit(text[p]) {
        return false, 0;
      }
      if text[p] == '0' as int && p + 1 < |text| && Decimals.IsDigit(text[p + 1]) {
        assert s[0] == text[p] && s[1] == text[p + 1];
        return false, 0;
      }
      assert s[..0] == [];
      while p < |text| && Decimals.IsDigit(text[p])
        invariant Valid() && start <= p
        invariant Decimals.AllDigits(s[..p - start]) && value == Decimals.Value(s[..p - start]) < U64
        decreases |text| - p
      {
        var d := Decimals.DigitValue(text[p]);
        p := p + 1;
        ghost var k := p - start;
        assert s[..k][..k - 1] == s[..k - 1] && s[k - 1] == text[p - 1];
        assert Decimals.Value(s[..k]) == 10 * value + d;
        if value > (U64 - 1 - d) / 10 {
          Decimals.LeadingAtLeast(s, k);
          Decimals.ValueMonotone(s[..Decimals.Leading(s)], k);
          assert s[..Decimals.Leading(s)][..k] == s[..k];
          return false, 0;
        }
        value := value * 10 + d;
      }
      Decimals.LeadingIs(s, p - start);
      assert s[0] == text[start];
      return true, value;
    }
  }

  /** A string with its opening quote. */
  function String(s: seq<byte>, nul: bool): JsonTexts.Scanned {
    if s != [] && s[0] == JsonTexts.QUOTE then JsonTexts.Scan(s[1..], nul) else JsonTexts.Rejected
  }

  // ----- Pieces of a fixed grammar

  /** What a fixed text leaves. */
  datatype Match = NoMatch | Match(rest: seq<byte>)

  /** What a string holds and leaves. */
  datatype Text = NoText | Text(raw: seq<byte>, rest: seq<byte>)

  function Literal(s: seq<byte>, text: seq<byte>): Match {
    if text <= s then Match(s[|text|..]) else NoMatch
  }

  lemma LiteralIff(s: seq<byte>, text: seq<byte>, rest: seq<byte>)
    ensures Literal(s, text) == Match(rest) <==> s == text + rest
  {
    if s == text + rest {
      assert s[|text|..] == rest;
    }
  }

  predicate PlainByte(b: byte) {
    0x20 <= b < 0x80 && b != JsonTexts.QUOTE && b != JsonTexts.BACKSLASH
  }

  /** Raw text that stands for itself. */
  predicate PlainRaw(raw: seq<byte>) {
    forall i | 0 <= i < |raw| :: PlainByte(raw[i])
  }

  /** Bytes that stand for themselves, up to a quote. */
  function PlainRun(s: seq<byte>): (r: Text)
    ensures r.Text? ==> |r.raw| + |r.rest| < |s|
  {
    if s == [] then NoText
    else if s[0] == JsonTexts.QUOTE then Text([], s[1..])
    else if !PlainByte(s[0]) then NoText
    else
      var more := PlainRun(s[1..]);
      if more.NoText? then NoText else Text([s[0]] + more.raw, more.rest)
  }

  /** A quoted text in which every byte stands for itself. */
  function Plain(s: seq<byte>): (r: Text)
    ensures r.Text? ==> |r.raw| + |r.rest| + 1 < |s|
  {
    if s != [] && s[0] == JsonTexts.QUOTE then PlainRun(s[1..]) else NoText
  }

  function Quoted(raw: seq<byte>, rest: seq<byte>): seq<byte> {
    [JsonTexts.QUOTE] + (raw + ([JsonTexts.QUOTE] + rest))
  }

  function KeyText(key: seq<byte>): seq<byte> {
    [JsonTexts.QUOTE] + (key + [JsonTexts.QUOTE, ':' as int])
  }

  /** Text that stands for itself is scanned up to its quote. */
  lemma {:induction false} PlainScans(raw: seq<byte>, rest: seq<byte>)
    requires PlainRaw(raw)
    ensures JsonTexts.Scan(raw + ([JsonTexts.QUOTE] + rest), false) == JsonTexts.Scanned(|raw|, |raw|)
  {
    var end := [JsonTexts.QUOTE] + rest;
    if raw == [] {
      assert raw + end == end;
      JsonTexts.ScanEnd(end);
    } else {
      PlainScans(raw[1..], rest);
      var s := raw + end;
      assert s[1..] == raw[1..] + end && s[..1] == raw[..1];
      JsonTexts.ScanUnit(s, 1, s[..1], |raw| - 1, |raw| - 1);
    }
  }

  /** An accepted text without escapes and high bytes stands for itself. */
  lemma {:induction false} ScannedIsPlain(s: seq<byte>)
    requires JsonTexts.Scan(s, false).Scanned?
    requires var n := JsonTexts.Scan(s, false).length;
             forall i | 0 <= i < n :: s[i] != JsonTexts.BACKSLASH && s[i] < 0x80
    ensures PlainRaw(s[..JsonTexts.Scan(s, false).length])
    decreases |s|
  {
    var n := JsonTexts.Scan(s, false).length;
    if s[0] != JsonTexts.QUOTE {
      var u := JsonTexts.First(s, false);
      assert s[u.width..][..n - u.width] == s[u.width..n];
      assert u.width == 1;
      ScannedIsPlain(s[1..]);
      assert s[..n] == [s[0]] + s[1..][..n - 1];
    }
  }

  lemma {:induction false} RunReads(raw: seq<byte>, rest: seq<byte>)
    requires PlainRaw(raw)
    ensures PlainRun(raw + ([JsonTexts.QUOTE] + rest)) == Text(raw, rest)
  {
    var end := [JsonTexts.QUOTE] + rest;
    if raw == [] {
      assert raw + end == end && end[1..] == rest;
    } else {
      assert (raw + end)[1..] == raw[1..] + end;
      RunReads(raw[1..], rest);
      assert [raw[0]] + raw[1..] == raw;
    }
  }

  lemma {:induction false} RunIsQuoted(s: seq<byte>)
    requires PlainRun(s).Text?
    ensures PlainRaw(PlainRun(s).raw) && s == PlainRun(s).raw + ([JsonTexts.QUOTE] + PlainRun(s).rest)
  {
    if s[0] != JsonTexts.QUOTE {
      RunIsQuoted(s[1..]);
      assert s == [s[0]] + s[1..];
    }
  }

  lemma PlainReads(raw: seq<byte>, rest: seq<byte>)
    requires PlainRaw(raw)
    ensures Plain(Quoted(raw, rest)) == Text(raw, rest)
  {
    RunReads(raw, rest);
    assert Quoted(raw, rest)[1..] == raw + ([JsonTexts.QUOTE] + rest);
  }

  lemma PlainIsQuoted(s: seq<byte>)
    requires Plain(s).Text?
    ensures PlainRaw(Plain(s).raw) && s == Quoted(Plain(s).raw, Plain(s).rest)
  {
    RunIsQuoted(s[1..]);
    assert s == [JsonTexts.QUOTE] + s[1..];
  }

  /** A plain string is its raw text in quotes, and nothing else. */
  lemma PlainIff(s: seq<byte>, raw: seq<byte>, rest: seq<byte>)
    ensures Plain(s) == Text(raw, rest) <==> PlainRaw(raw) && s == Quoted(raw, rest)
  {
    if Plain(s) == Text(raw, rest) {
      PlainIsQuoted(s);
    }
    if PlainRaw(raw) && s == Quoted(raw, rest) {
      PlainReads(raw, rest);
    }
  }

  lemma ScannedReads(s: seq<byte>, n: nat)
    requires String(s, false).Scanned? && n == String(s, false).length
    requires forall i | 1 <= i <= n :: s[i] != JsonTexts.BACKSLASH && s[i] < 0x80
    ensures Plain(s) == Text(s[1..n + 1], s[n + 2..])
  {
    var t := s[1..];
    ScannedIsPlain(t);
    var raw, rest := s[1..n + 1], s[n + 2..];
    assert t[..n] == raw && t[n] == s[n + 1];
    assert s == Quoted(raw, rest);
    PlainReads(raw, rest);
  }

  lemma PlainScanned(s: seq<byte>)
    requires Plain(s).Text?
    ensures String(s, false).Scanned? && String(s, false).length == |Plain(s).raw|
    ensures forall i | 1 <= i <= |Plain(s).raw| :: s[i] != JsonTexts.BACKSLASH && s[i] < 0x80
  {
    PlainIsQuoted(s);
    var raw := Plain(s).raw;
    PlainScans(raw, Plain(s).rest);
    assert s[1..] == raw + ([JsonTexts.QUOTE] + Plain(s).rest);
    assert forall i | 1 <= i <= |raw| :: s[i] == raw[i - 1];
  }

  /** The general string scanner agrees, once it has found no escape and no high byte. */
  lemma PlainIsScanned(s: seq<byte>)
    ensures var r := String(s, false);
            if r.Scanned? && (forall i | 1 <= i <= r.length :: s[i] != JsonTexts.BACKSLASH && s[i] < 0x80)
            then Plain(s) == Text(s[1..r.length + 1], s[r.length + 2..])
            else Plain(s).NoText?
  {
    var r := String(s, false);
    if r.Scanned? && forall i | 1 <= i <= r.length :: s[i] != JsonTexts.BACKSLASH && s[i] < 0x80 {
      ScannedReads(s, r.length);
    } else if Plain(s).Text? {
      PlainScanned(s);
    }
  }

  /** The same by the scanned span. */
  lemma PlainSpan(s: seq<byte>, raw: seq<byte>)
    requires String(s, false).Scanned? && raw == s[1..String(s, false).length + 1]
    ensures if forall k | 0 <= k < |raw| :: raw[k] != JsonTexts.BACKSLASH && raw[k] < 0x80
            then Plain(s) == Text(raw, s[|raw| + 2..])
            else Plain(s).NoText?
  {
    PlainIsScanned(s);
    assert forall i | 1 <= i <= |raw| :: s[i] == raw[i - 1];
    assert forall k | 0 <= k < |raw| :: raw[k] == s[k + 1];
  }

  /** Comparing a scanned key with plain text is the same as looking for its quoted form. */
  lemma KeyIsLiteral(s: seq<byte>, key: seq<byte>)
    requires PlainRaw(key)
    ensures var r := String(s, false);
            Literal(s, KeyText(key)).Match? <==>
              r.Scanned? && s[1..][..r.length] == key && s[r.length + 2..] != [] && s[r.length + 2] == ':' as int
    ensures Literal(s, KeyText(key)).Match? ==> Literal(s, KeyText(key)).rest == s[|key| + 3..]
  {
    var r := String(s, false);
    if r.Scanned? && s[1..][..r.length] == key && s[r.length + 2..] != [] && s[r.length + 2] == ':' as int {
      assert s[..|key| + 3] == KeyText(key);
    }
    if KeyText(key) <= s {
      var after := [':' as int] + s[|key| + 3..];
      assert s == KeyText(key) + s[|key| + 3..];
      assert s == Quoted(key, after);
      PlainReads(key, after);
      PlainScanned(s);
      assert s[1..][..|key|] == key && s[|key| + 2..] == after;
    }
  }

  /** The buffer that decoded process strings share, each ended by NUL. */
  class ProcessArena {
    const arena: array<byte>
    var used: nat

    ghost predicate Valid()
      reads this
    {
      arena.Length == PROCESS_MAX + 1 && used <= arena.Length
    }

    constructor ()
      ensures Valid() && fresh(arena) && used == 0
    {
      arena := new byte[PROCESS_MAX + 1](_ => 0);
      used := 0;
    }

    /** The byte that the unit at `i` stores; zero is refused later. */
    static method Unescape(raw: seq<byte>, i: nat) returns (ok: bool, value: byte, next: nat)
      requires i < |raw|
      ensures var u := JsonTexts.DecodeUnit(raw[i..]);
              if ok && value != 0 then i < next <= |raw| && u == JsonTexts.Part(next - i, [value]) else u.Bad?
    {
      ghost var s := raw[i..];
      value, next := raw[i], i + 1;
      if value != JsonTexts.BACKSLASH {
        assert s[..1] == [value];
        return true, value, next;
      }
      if next >= |raw| {
        return false, 0, next;
      }
      var escaped := raw[next];
      next := next + 1;
      assert s[1] == escaped;
      if JsonTexts.Unshort(escaped).Some? {
        return true, JsonTexts.Unshort(escaped).value, next;
      }
      if escaped != 'u' as int || |raw| - next < 4 || raw[next] != '0' as int || raw[next + 1] != '0' as int ||
         !JsonTexts.IsHex(raw[next + 2]) || !JsonTexts.IsHex(raw[next + 3]) {
        return false, 0, next;
      }
      assert s[4] == raw[next + 2] && s[5] == raw[next + 3];
      value := JsonTexts.HexValue(raw[next + 2]) * 16 + JsonTexts.HexValue(raw[next + 3]);
      return true, value, next + 4;
    }

    method Push(value: byte)
      requires Valid() && used < arena.Length
      modifies this, arena
      ensures Valid() && used == old(used) + 1 && arena[..used] == old(arena[..used]) + [value]
    {
      arena[used] := value;
      used := used + 1;
      assert arena[..used] == arena[..used - 1] + [value];
    }

    method DecodeProcessString(raw: seq<byte>) returns (ok: bool, start: nat)
      requires Valid()
      modifies this, arena
      ensures Valid()
      ensures var decoded := JsonTexts.Decode(raw);
              ok == (decoded.Some? && old(used) + |decoded.value| <= PROCESS_MAX)
      ensures ok ==> var value := JsonTexts.Decode(raw).value;
                     && start == old(used) && used == start + |value| + 1
                     && arena[..used] == old(arena[..used]) + value + [0]
    {
      start := used;
      if start > PROCESS_MAX {
        return false, start;
      }
      ghost var all := JsonTexts.Decode(raw);
      ghost var stored: seq<byte> := [];
      var i := 0;
      assert raw[0..] == raw && arena[..used] + stored == arena[..used];
      assert all.Some? ==> stored + all.value == all.value;
      while i < |raw|
        invariant Valid() && 0 <= i <= |raw| && used == start + |stored| <= PROCESS_MAX
        invariant arena[..used] == old(arena[..used]) + stored
        invariant all == Ahead(stored, JsonTexts.Decode(raw[i..]))
      {
        var unit, value, next := Unescape(raw, i);
        if !unit || value == 0 {
          return false, start;
        }
        AheadStep(raw[i..], stored, next - i, value, raw[next..]);
        if used >= PROCESS_MAX {
          return false, start;
        }
        Push(value);
        assert old(arena[..used]) + (stored + [value]) == (old(arena[..used]) + stored) + [value];
        i, stored := next, stored + [value];
      }
      assert stored + [] == stored;
      Push(0);
      return true, start;
    }
  }

  /** What a text stores, once some of it is stored. */
  ghost function Ahead(stored: seq<byte>, rest: Option<seq<byte>>): Option<seq<byte>> {
    if rest.None? then None else Some(stored + rest.value)
  }

  lemma AheadStep(text: seq<byte>, stored: seq<byte>, w: nat, value: byte, after: seq<byte>)
    requires text != [] && JsonTexts.DecodeUnit(text) == JsonTexts.Part(w, [value]) && w <= |text| && after == text[w..]
    ensures Ahead(stored, JsonTexts.Decode(text)) == Ahead(stored + [value], JsonTexts.Decode(after))
  {
    var more := JsonTexts.Decode(after);
    JsonTexts.DecodeStep(text, w, value, more);
    if more.Some? {
      assert stored + ([value] + more.value) == (stored + [value]) + more.value;
    }
  }
}
