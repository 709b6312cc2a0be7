/** Unsigned decimal numbers as guest/stage1/init.c reads and writes them. */
module Decimals {
  import opened Bytes

  predicate IsDigit(b: byte) {
    '0' as int <= b <= '9' as int
  }

  predicate AllDigits(s: seq<byte>) {
    forall i | 0 <= i < |s| :: IsDigit(s[i])
  }

  function Digit(d: int): (b: byte)
    requires 0 <= d < 10
    ensures IsDigit(b)
  {
    '0' as int + d
  }

  function DigitValue(b: byte): (d: nat)
    requires IsDigit(b)
    ensures d < 10 && Digit(d) == b
  {
    b - '0' as int
  }

  /** The number that a row of digits spells. */
  function Value(s: seq<byte>): nat
    requires AllDigits(s)
  {
    if s == [] then 0 else 10 * Value(s[..|s| - 1]) + DigitValue(s[|s| - 1])
  }

  /** The digits of a number, without leading zeros. */
  function Print(n: nat): (s: seq<byte>)
    ensures s != [] && AllDigits(s)
  {
    if n < 10 then [Digit(n)] else Print(n / 10) + [Digit(n % 10)]
  }

  predicate Canonical(s: seq<byte>) {
    s != [] && AllDigits(s) && (|s| > 1 ==> s[0] != '0' as int)
  }

  lemma {:induction false} PrintValue(n: nat)
    ensures Value(Print(n)) == n && Canonical(Print(n)) && (n > 0 ==> Print(n)[0] != '0' as int)
  {
    if n >= 10 {
      PrintValue(n / 10);
      assert Print(n)[..|Print(n)| - 1] == Print(n / 10);
    }
  }

  lemma {:induction false} ValuePositive(s: seq<byte>)
    requires Canonical(s) && s[0] != '0' as int
    ensures Value(s) > 0
  {
    if |s| > 1 {
      ValuePositive(s[..|s| - 1]);
    } else {
      assert s[..0] == [];
    }
  }

  /** A canonical row of digits is the printed form of the number that it spells. */
  lemma {:induction false} ValuePrint(s: seq<byte>)
    requires Canonical(s)
    ensures Print(Value(s)) == s
  {
    var init, last := s[..|s| - 1], s[|s| - 1];
    assert s == init + [last];
    if |s| == 1 {
      assert init == [];
    } else {
      ValuePrint(init);
      ValuePositive(init);
    }
  }

  /** Longer rows of digits never spell smaller numbers. */
  lemma {:induction false} ValueMonotone(s: seq<byte>, n: nat)
    requires AllDigits(s) && n <= |s|
    ensures AllDigits(s[..n]) && Value(s[..n]) <= Value(s)
  {
    if n < |s| {
      ValueMonotone(s[..|s| - 1], n);
      assert s[..|s| - 1][..n] == s[..n];
    } else {
      assert s[..n] == s;
    }
  }

  /** How many digits a text starts with. */
  function Leading(s: seq<byte>): (n: nat)
    ensures n <= |s| && AllDigits(s[..n]) && (n < |s| ==> !IsDigit(s[n]))
  {
    if s == [] || !IsDigit(s[0]) then 0
    else
      assert s[..1 + Leading(s[1..])] == [s[0]] + s[1..][..Leading(s[1..])];
      1 + Leading(s[1..])
  }

  lemma {:induction false} LeadingIs(s: seq<byte>, n: nat)
    requires n <= |s| && AllDigits(s[..n]) && (n < |s| ==> !IsDigit(s[n]))
    ensures Leading(s) == n
  {
    if n > 0 {
      assert s[0] == s[..n][0];
      assert s[1..][..n - 1] == s[..n][1..];
      LeadingIs(s[1..], n - 1);
    }
  }

  lemma {:induction false} LeadingAtLeast(s: seq<byte>, n: nat)
    requires n <= |s| && AllDigits(s[..n])
    ensures n <= Leading(s)
  {
    if n > 0 {
      assert s[0] == s[..n][0];
      assert s[1..][..n - 1] == s[..n][1..];
      LeadingAtLeast(s[1..], n - 1);
    }
  }

  datatype Parsed = Rejected | Parsed(value: nat, length: nat)

  /** The number at the start of a text, if it is canonical and fits 64 bits. */
  function Parse(s: seq<byte>): Parsed {
    var n := Leading(s);
    if Canonical(s[..n]) && Value(s[..n]) < U64 then Parsed(Value(s[..n]), n) else Rejected
  }

  /** Reading back what was written. */
  lemma PrintParses(v: nat, rest: seq<byte>)
    requires v < U64 && (rest != [] ==> !IsDigit(rest[0]))
    ensures Parse(Print(v) + rest) == Parsed(v, |Print(v)|)
  {
    PrintValue(v);
    var s := Print(v) + rest;
    assert s[..|Print(v)|] == Print(v);
    LeadingIs(s, |Print(v)|);
  }

  /** Whatever is read was written that way: no leading zeros, no overflow, one spelling each. */
  lemma ParseIsPrinted(s: seq<byte>)
    requires Parse(s).Parsed?
    ensures var r := Parse(s);
            r.value < U64 && s[..r.length] == Print(r.value) && (r.length < |s| ==> !IsDigit(s[r.length]))
  {
    ValuePrint(s[..Parse(s).length]);
  }

  // ----- How many digits 64 bits need

  function Pow10(k: nat): nat {
    if k == 0 then 1 else 10 * Pow10(k - 1)
  }

  lemma {:induction false} PrintWidth(n: nat, k: nat)
    requires k > 0 && n < Pow10(k)
    ensures |Print(n)| <= k
  {
    if n >= 10 {
      assert k > 1;
      PrintWidth(n / 10, k - 1);
    }
  }

  lemma TwentyDigits()
    ensures U64 <= Pow10(20)
  {
    assert Pow10(5) == 100000;
    assert Pow10(10) == 10 * (10 * (10 * (10 * (10 * Pow10(5)))));
    assert Pow10(15) == 10 * (10 * (10 * (10 * (10 * Pow10(10)))));
    assert Pow10(20) == 10 * (10 * (10 * (10 * (10 * Pow10(15)))));
  }

  // ----- The programs

  function Reverse(s: seq<byte>): (r: seq<byte>)
    ensures |r| == |s| && forall i | 0 <= i < |s| :: r[i] == s[|s| - 1 - i]
  {
    seq(|s|, i requires 0 <= i < |s| => s[|s| - 1 - i])
  }

  /** The digits, last one first, into a scratch array of twenty. */
  method Scratch(digits: array<byte>, value: nat) returns (count: nat)
    requires value < U64 && digits.Length == 20
    modifies digits
    ensures count <= 20 && Reverse(digits[..count]) == Print(value)
  {
    TwentyDigits();
    PrintWidth(value, 20);
    count := 0;
    var rest := value;
    while true
      invariant 0 <= count < 20 && count + |Print(rest)| == |Print(value)|
      invariant Print(value) == Print(rest) + Reverse(digits[..count])
      decreases 20 - count
    {
      digits[count] := Digit(rest % 10);
      assert Reverse(digits[..count + 1]) == [Digit(rest % 10)] + Reverse(digits[..count]);
      if rest >= 10 {
        assert Print(rest) == Print(rest / 10) + [Digit(rest % 10)];
        assert Print(value) == Print(rest / 10) + ([Digit(rest % 10)] + Reverse(digits[..count]));
      }
      count, rest := count + 1, rest / 10;
      if rest == 0 {
        break;
      }
    }
  }

  /** Appends the decimal form of a 64-bit number, or leaves the output alone if it does not fit. */
  method AppendU64(out: array<byte>, cap: nat, used: nat, value: nat) returns (ok: bool, now: nat)
    requires value < U64 && used <= cap <= out.Length
    modifies out
    ensures ok == (used + |Print(value)| <= cap)
    ensures ok ==> now == used + |Print(value)| && out[..now] == old(out[..used]) + Print(value)
    ensures !ok ==> now == used && out[..] == old(out[..])
  {
    var digits := new byte[20](_ => 0);
    var count := Scratch(digits, value);
    ghost var text := Print(value);
    assert |text| == |Reverse(digits[..count])| == count;
    if used + count > cap {
      return false, used;
    }
    now := used;
    ghost var n := count;
    while count > 0
      invariant 0 <= count <= n && now == used + (n - count)
      invariant Reverse(digits[..n]) == text && digits != out
      invariant out[..now] == old(out[..used]) + text[..n - count]
    {
      count := count - 1;
      assert digits[count] == text[n - 1 - count];
      out[now] := digits[count];
      now := now + 1;
      assert out[..now] == old(out[..used]) + text[..n - 1 - count] + [text[n - 1 - count]];
    }
    return true, now;
  }
}
