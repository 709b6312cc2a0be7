/**
 The streaming SHA-256 and HMAC of guest/stage1/init.c.

 `Compress` and `Pad` are written from FIPS 180-4 and `Hmac` from RFC 2104; the class is the
 program's context, which buffers one block and compresses it in place.
 */
module Sha256 {
  import opened Bytes

  type word = bv32

  // ----- Section 4.1.2 of FIPS 180-4

  /** ROTR as the program writes it. */
  function Rotr(x: word, n: word): word
    requires 0 < n < 32
  {
    (x >> n) | (x << (32 - n))
  }

  /** Addition modulo 2^32. */
  function Plus(x: word, y: word): word { x + y }

  function Sum4(a: word, b: word, c: word, d: word): word { a + b + c + d }

  lemma Reordered(a: word, b: word, c: word, d: word)
    ensures Sum4(a, b, c, d) == Sum4(d, c, b, a)
  {
  }

  function Ch(x: word, y: word, z: word): word { (x & y) ^ (!x & z) }
  function Maj(x: word, y: word, z: word): word { (x & y) ^ (x & z) ^ (y & z) }
  function BigSigma0(x: word): word { Rotr(x, 2) ^ Rotr(x, 13) ^ Rotr(x, 22) }
  function BigSigma1(x: word): word { Rotr(x, 6) ^ Rotr(x, 11) ^ Rotr(x, 25) }
  function SmallSigma0(x: word): word { Rotr(x, 7) ^ Rotr(x, 18) ^ (x >> 3) }
  function SmallSigma1(x: word): word { Rotr(x, 17) ^ Rotr(x, 19) ^ (x >> 10) }

  /** The two shifts rotate, for every amount that the hash uses. */
  lemma RotrIsRotateRight(x: word)
    ensures Rotr(x, 2) == x.RotateRight(2) && Rotr(x, 13) == x.RotateRight(13) && Rotr(x, 22) == x.RotateRight(22)
    ensures Rotr(x, 6) == x.RotateRight(6) && Rotr(x, 11) == x.RotateRight(11) && Rotr(x, 25) == x.RotateRight(25)
    ensures Rotr(x, 7) == x.RotateRight(7) && Rotr(x, 18) == x.RotateRight(18)
    ensures Rotr(x, 17) == x.RotateRight(17) && Rotr(x, 19) == x.RotateRight(19)
  {
  }

  const K: seq<word> := [
    0x428a2f98, 0x71374491, 0xb5c0fbcf, 0xe9b5dba5, 0x3956c25b, 0x59f111f1, 0x923f82a4, 0xab1c5ed5,
    0xd807aa98, 0x12835b01, 0x243185be, 0x550c7dc3, 0x72be5d74, 0x80deb1fe, 0x9bdc06a7, 0xc19bf174
  ] + [
    0xe49b69c1, 0xefbe4786, 0x0fc19dc6, 0x240ca1cc, 0x2de92c6f, 0x4a7484aa, 0x5cb0a9dc, 0x76f988da,
    0x983e5152, 0xa831c66d, 0xb00327c8, 0xbf597fc7, 0xc6e00bf3, 0xd5a79147, 0x06ca6351, 0x14292967
  ] + [
    0x27b70a85, 0x2e1b2138, 0x4d2c6dfc, 0x53380d13, 0x650a7354, 0x766a0abb, 0x81c2c92e, 0x92722c85,
    0xa2bfe8a1, 0xa81a664b, 0xc24b8b70, 0xc76c51a3, 0xd192e819, 0xd6990624, 0xf40e3585, 0x106aa070
  ] + [
    0x19a4c116, 0x1e376c08, 0x2748774c, 0x34b0bcb5, 0x391c0cb3, 0x4ed8aa4a, 0x5b9cca4f, 0x682e6ff3,
    0x748f82ee, 0x78a5636f, 0x84c87814, 0x8cc70208, 0x90befffa, 0xa4506ceb, 0xbef9a3f7, 0xc67178f2
  ]

  // ----- Section 6.2.2: one block

  /** The working variables a to h; also a hash value H0 to H7. */
  datatype Working = Working(a: word, b: word, c: word, d: word, e: word, f: word, g: word, h: word)

  const INITIAL := Working(0x6a09e667, 0xbb67ae85, 0x3c6ef372, 0xa54ff53a, 0x510e527f, 0x9b05688c, 0x1f83d9ab,
      0x5be0cd19)

  function Wide(b: byte): word {
    b as bv8 as word
  }

  function Pack(a: byte, b: byte, c: byte, d: byte): word {
    (Wide(a) << 24) | (Wide(b) << 16) | (Wide(c) << 8) | Wide(d)
  }

  function Next(w16: word, w15: word, w7: word, w2: word): word {
    Sum4(SmallSigma1(w2), w7, SmallSigma0(w15), w16)
  }

  /** The first `t` words of the message schedule. */
  function Schedule(block: seq<byte>, t: nat): (w: seq<word>)
    requires |block| == 64 && t <= 64
    ensures |w| == t
  {
    if t == 0 then []
    else
      var w := Schedule(block, t - 1);
      var i := t - 1;
      w + [if i < 16 then Pack(block[4 * i], block[4 * i + 1], block[4 * i + 2], block[4 * i + 3])
           else Next(w[i - 16], w[i - 15], w[i - 7], w[i - 2])]
  }

  lemma FirstWord(block: seq<byte>, i: nat, word: word)
    requires |block| == 64 && i < 16
    requires word == Pack(block[4 * i], block[4 * i + 1], block[4 * i + 2], block[4 * i + 3])
    ensures Schedule(block, i + 1) == Schedule(block, i) + [word]
  {
  }

  lemma LaterWord(block: seq<byte>, i: nat, w: seq<word>, word: word)
    requires |block| == 64 && 16 <= i < 64 && w == Schedule(block, i)
    requires word == Next(w[i - 16], w[i - 15], w[i - 7], w[i - 2])
    ensures Schedule(block, i + 1) == w + [word]
  {
  }

  function Round(v: Working, k: word, w: word): Working {
    var t1 := Plus(Plus(Plus(Plus(v.h, BigSigma1(v.e)), Ch(v.e, v.f, v.g)), k), w);
    var t2 := Plus(BigSigma0(v.a), Maj(v.a, v.b, v.c));
    Working(Plus(t1, t2), v.a, v.b, v.c, Plus(v.d, t1), v.e, v.f, v.g)
  }

  /** The working variables after `t` rounds. */
  function Rounds(v: Working, w: seq<word>, t: nat): Working
    requires t <= |w| <= |K|
  {
    if t == 0 then v else Round(Rounds(v, w, t - 1), K[t - 1], w[t - 1])
  }

  function Add(v: Working, u: Working): Working {
    Working(Plus(v.a, u.a), Plus(v.b, u.b), Plus(v.c, u.c), Plus(v.d, u.d), Plus(v.e, u.e), Plus(v.f, u.f),
        Plus(v.g, u.g), Plus(v.h, u.h))
  }

  function Compress(v: Working, block: seq<byte>): Working
    requires |block| == 64
  {
    Add(v, Rounds(v, Schedule(block, |K|), |K|))
  }

  lemma Compressed(v: Working, block: seq<byte>, w: seq<word>, u: Working)
    requires |block| == 64 && w == Schedule(block, |K|) && u == Rounds(v, w, |K|)
    ensures Compress(v, block) == Add(v, u)
  {
  }

  // ----- Section 5.1.1: padding, and the whole hash

  function Zeros(n: nat): (s: seq<byte>)
    ensures |s| == n
  {
    seq(n, _ => 0)
  }

  /** A 64-bit number without its last 7 - i octets. */
  function Shifted(n: nat, i: nat): nat
    requires i < 8
  {
    match i
    case 0 => n / 0x100_0000_0000_0000
    case 1 => n / 0x1_0000_0000_0000
    case 2 => n / 0x100_0000_0000
    case 3 => n / 0x1_0000_0000
    case 4 => n / 0x100_0000
    case 5 => n / 0x1_0000
    case 6 => n / 0x100
    case _ => n
  }

  function LengthOctet(n: nat, i: nat): byte
    requires i < 8
  {
    Shifted(n, i) % 256
  }

  function BigEndian(n: nat): (s: seq<byte>)
    requires n < U64
    ensures |s| == 8
  {
    seq(8, i requires 0 <= i < 8 => LengthOctet(n, i))
  }

  /** After the single one bit, `k` zero octets leave room for the length at the end of a block. */
  predicate Closes(n: nat, k: nat) {
    (n + 1 + k) % 64 == 56
  }

  function Gap(n: nat): (k: nat) {
    (119 - n % 64) % 64
  }

  lemma GapIsSmallest(n: nat)
    ensures Closes(n, Gap(n)) && forall k | 0 <= k < Gap(n) :: !Closes(n, k)
  {
    var q, r := n / 64, n % 64;
    assert n == 64 * q + r;
    forall k | 0 <= k < 64 ensures Closes(n, k) <==> k == Gap(n) {
      assert n + 1 + k == 64 * q + (r + 1 + k);
    }
  }

  /** The padded message; its last eight octets hold the length in bits, which the program reduces to 64 bits. */
  function Pad(m: seq<byte>): (s: seq<byte>)
    ensures |s| == |m| + 1 + Gap(|m|) + 8
  {
    m + [0x80] + Zeros(Gap(|m|)) + BigEndian(8 * |m| % U64)
  }

  function Blocks(v: Working, m: seq<byte>): Working
    requires |m| % 64 == 0
    decreases |m|
  {
    if m == [] then v else Compress(Blocks(v, m[..|m| - 64]), m[|m| - 64..])
  }

  function Unpack(w: word): seq<byte> {
    [Low(w >> 24), Low(w >> 16), Low(w >> 8), Low(w)]
  }

  /** The low octet of a word. */
  function Low(w: word): byte {
    (w & 0xff) as bv8 as int
  }

  function Spread(words: seq<word>): (s: seq<byte>)
    ensures |s| == 4 * |words|
  {
    if words == [] then [] else Spread(words[..|words| - 1]) + Unpack(words[|words| - 1])
  }

  function Words(v: Working): (w: seq<word>)
    ensures |w| == 8
  {
    [v.a, v.b, v.c, v.d, v.e, v.f, v.g, v.h]
  }

  lemma PadWidth(m: seq<byte>)
    ensures |Pad(m)| % 64 == 0
  {
    GapIsSmallest(|m|);
    Aligned(|Pad(m)|, |m| + 1 + Gap(|m|));
  }

  lemma Aligned(n: int, k: int)
    requires n == k + 8 && k % 64 == 56
    ensures n % 64 == 0
  {
  }

  function Hash(m: seq<byte>): (s: seq<byte>)
    ensures |s| == 32
  {
    PadWidth(m);
    Spread(Words(Blocks(INITIAL, Pad(m))))
  }

  lemma OneBlock(v: Working, m: seq<byte>, block: seq<byte>)
    requires |m| % 64 == 0 && |block| == 64
    ensures |m + block| % 64 == 0 && Blocks(v, m + block) == Compress(Blocks(v, m), block)
  {
    assert (m + block)[..|m|] == m && (m + block)[|m|..] == block;
  }

  // ----- The program

  /** The program adds the four words in another order. */
  method NextWord(w16: word, w15: word, w7: word, w2: word) returns (w: word)
    ensures w == Next(w16, w15, w7, w2)
  {
    var s0 := SmallSigma0(w15);
    var s1 := SmallSigma1(w2);
    w := Sum4(w16, s0, w7, s1);
    Reordered(w16, s0, w7, s1);
  }

  method NextRound(v: Working, k: word, w: word) returns (u: Working)
    ensures u == Round(v, k, w)
  {
    var Working(a, b, cc, d, e, f, g, h) := v;
    var t1 := Plus(Plus(Plus(Plus(h, BigSigma1(e)), Ch(e, f, g)), k), w);
    var t2 := Plus(BigSigma0(a), Maj(a, b, cc));
    h := g; g := f; f := e; e := Plus(d, t1); d := cc; cc := b; b := a; a := Plus(t1, t2);
    u := Working(a, b, cc, d, e, f, g, h);
  }

  /** The context: a hash value, the message length, and a block that fills up. */
  class Context {
    const h: array<word>
    var total: nat
    const block: array<byte>
    var used: nat
    /** The octets whose blocks are compressed. */
    ghost var finished: seq<byte>

    ghost predicate Shaped()
      reads this
    {
      h.Length == 8 && block.Length == 64 && used <= 64
    }

    ghost function Value(): Working
      reads h
      requires h.Length == 8
    {
      Working(h[0], h[1], h[2], h[3], h[4], h[5], h[6], h[7])
    }

    /** All the octets given so far. */
    ghost function Message(): seq<byte>
      reads this, block
      requires Shaped()
    {
      finished + block[..used]
    }

    ghost predicate Buffered()
      reads this, h, block
    {
      Shaped() && used < 64 && |finished| % 64 == 0 && Value() == Blocks(INITIAL, finished)
    }

    /** The length is kept in 64 bits. */
    ghost predicate Valid()
      reads this, h, block
    {
      Buffered() && total == |Message()| % U64
    }

    constructor ()
      ensures Valid() && Message() == [] && fresh(h) && fresh(block)
    {
      h := new word[8];
      block := new byte[64];
      total, used, finished := 0, 0, [];
      new;
      h[0], h[1], h[2], h[3] := INITIAL.a, INITIAL.b, INITIAL.c, INITIAL.d;
      h[4], h[5], h[6], h[7] := INITIAL.e, INITIAL.f, INITIAL.g, INITIAL.h;
    }

    static method Expand(b: seq<byte>) returns (w: array<word>)
      requires |b| == 64
      ensures fresh(w) && w[..] == Schedule(b, |K|)
    {
      w := new word[64];
      for i := 0 to 16
        invariant w[..i] == Schedule(b, i)
      {
        ghost var before := w[..i];
        w[i] := Pack(b[4 * i], b[4 * i + 1], b[4 * i + 2], b[4 * i + 3]);
        FirstWord(b, i, w[i]);
        assert w[..i + 1] == before + [w[i]];
      }
      for i := 16 to 64
        invariant w[..i] == Schedule(b, i)
      {
        ghost var before := w[..i];
        w[i] := NextWord(w[i - 16], w[i - 15], w[i - 7], w[i - 2]);
        LaterWord(b, i, before, w[i]);
        assert w[..i + 1] == before + [w[i]];
      }
      assert w[..64] == w[..];
    }

    method AddWorking(v: Working)
      requires h.Length == 8
      modifies h
      ensures Value() == Add(old(Value()), v)
    {
      h[0], h[1], h[2], h[3] := Plus(h[0], v.a), Plus(h[1], v.b), Plus(h[2], v.c), Plus(h[3], v.d);
      h[4], h[5], h[6], h[7] := Plus(h[4], v.e), Plus(h[5], v.f), Plus(h[6], v.g), Plus(h[7], v.h);
    }

    /** Compresses the buffered block into the hash value. */
    method Transform()
      requires Shaped()
      modifies h
      ensures Value() == Compress(old(Value()), block[..])
    {
      var w := Expand(block[..]);
      ghost var start := Value();
      var v := RunRounds(Working(h[0], h[1], h[2], h[3], h[4], h[5], h[6], h[7]), w);
      AddWorking(v);
      Compressed(start, block[..], w[..], v);
    }

    static method RunRounds(start: Working, w: array<word>) returns (v: Working)
      requires w.Length == |K|
      ensures v == Rounds(start, w[..], |K|)
    {
      v := start;
      for i := 0 to |K|
        invariant v == Rounds(start, w[..], i)
      {
        v := NextRound(v, K[i], w[i]);
      }
    }

    /** Buffers `data`, and compresses the block whenever it is full. */
    method Update(data: seq<byte>)
      requires Valid()
      modifies this, h, block
      ensures Valid() && Message() == old(Message()) + data
    {
      ghost var start := Message();
      Wraps(|start|, |data|);
      hide Blocks, Context.Value;
      total := (total + |data|) % U64;
      var at := 0;
      assert start + data[..0] == start;
      while at < |data|
        invariant 0 <= at <= |data| && Buffered()
        invariant Message() == start + data[..at]
        invariant total == |start + data| % U64
      {
        var take := 64 - used;
        if take > |data| - at {
          take := |data| - at;
        }
        Sliced(start, data, at, take);
        Store(data[at..at + take]);
        at := at + take;
      }
      assert data[..at] == data;
    }

    /** An empty part is not passed on. */
    method Part(data: seq<byte>)
      requires Valid()
      modifies this, h, block
      ensures Valid() && Message() == old(Message()) + data
    {
      if data == [] {
        assert Message() + data == Message();
      } else {
        Update(data);
      }
    }

    /** Takes octets that fit into the block. */
    method Store(part: seq<byte>)
      requires Buffered() && used + |part| <= 64
      modifies this`used, this`finished, h, block
      ensures Buffered() && Message() == old(Message()) + part
    {
      ghost var waiting := block[..used];
      Copy(part);
      assert finished + (waiting + part) == (finished + waiting) + part;
      if used == 64 {
        Flush();
      }
    }

    /** Compresses the full block and empties it. */
    method Flush()
      requires Shaped() && used == 64 && |finished| % 64 == 0 && Value() == Blocks(INITIAL, finished)
      modifies this`used, this`finished, h
      ensures Buffered() && used == 0
      ensures finished == old(finished) + block[..] && Message() == old(Message())
    {
      OneBlock(INITIAL, finished, block[..]);
      assert block[..64] == block[..];
      Transform();
      finished, used := finished + block[..], 0;
    }

    method Copy(data: seq<byte>)
      requires Shaped() && used + |data| <= 64
      modifies this`used, block
      ensures used == old(used) + |data|
      ensures block[..used] == old(block[..used]) + data
    {
      ghost var before := block[..used];
      for i := 0 to |data|
        invariant used == old(used)
        invariant block[..used] == before && block[used..used + i] == data[..i]
      {
        block[used + i] := data[i];
        assert data[..i + 1] == data[..i] + [data[i]];
        assert block[used..used + (i + 1)] == block[used..used + i] + [data[i]];
      }
      used := used + |data|;
      assert block[..used] == block[..old(used)] + block[old(used)..used];
    }
    /** Fills the block with zeros up to `n`. */
    method Fill(n: nat)
      requires Shaped() && used <= n <= 64
      modifies this`used, block
      ensures used == n && block[..n] == old(block[..used]) + Zeros(n - old(used))
    {
      ghost var before, start := block[..used], used;
      while used < n
        invariant start <= used <= n
        invariant block[..used] == before + Zeros(used - start)
      {
        block[used] := 0;
        assert block[..used + 1] == block[..used] + [0];
        assert Zeros(used + 1 - start) == Zeros(used - start) + [0];
        used := used + 1;
      }
    }

    /** Writes the length behind the first 56 octets. */
    method StoreLength(bits: nat)
      requires Shaped() && bits < U64
      modifies block
      ensures block[..] == old(block[..56]) + BigEndian(bits)
    {
      for i := 0 to 8
        invariant block[..56] == old(block[..56])
        invariant forall k | 0 <= k < i :: block[56 + k] == LengthOctet(bits, k)
      {
        block[56 + i] := LengthOctet(bits, i);
      }
      assert block[..] == block[..56] + block[56..];
      assert block[56..] == BigEndian(bits);
    }

    /** Marks the end, and makes room for the length if there is none. */
    method Mark(ghost length: seq<byte>)
      requires Buffered() && length == BigEndian(8 * |Message()| % U64)
      modifies this`used, this`finished, h, block
      ensures Buffered() && used <= 56
      ensures Closed(finished, block[..used], length) == Pad(old(Message()))
    {
      ghost var f, w := finished, block[..used];
      block[used] := 0x80;
      used := used + 1;
      assert block[..used] == w + [0x80];
      if used > 56 {
        PadLong(f, w, length);
        Fill(64);
        assert block[..] == (w + [0x80]) + Zeros(63 - |w|);
        Flush();
        assert block[..0] == [];
      } else {
        PadShort(f, w, length);
      }
    }

    /** Compresses the last blocks. */
    method Close(bits: nat)
      requires Buffered() && bits == 8 * |Message()| % U64
      modifies this`used, this`finished, h, block
      ensures h.Length == 8 && |Pad(old(Message()))| % 64 == 0
      ensures Value() == Blocks(INITIAL, Pad(old(Message())))
    {
      ghost var padded := Pad(Message());
      Mark(BigEndian(bits));
      Finish(bits, padded);
    }

    method Finish(bits: nat, ghost padded: seq<byte>)
      requires Buffered() && used <= 56 && bits < U64 && padded == Closed(finished, block[..used], BigEndian(bits))
      modifies this`used, h, block
      ensures h.Length == 8 && |padded| % 64 == 0 && Value() == Blocks(INITIAL, padded)
    {
      ghost var w := block[..used];
      Fill(56);
      StoreLength(bits);
      assert block[..] == (w + Zeros(56 - |w|)) + BigEndian(bits);
      CompressLast(padded);
    }

    method CompressLast(ghost padded: seq<byte>)
      requires Buffered() && finished + block[..] == padded
      modifies h
      ensures |padded| % 64 == 0 && Value() == Blocks(INITIAL, padded)
    {
      OneBlock(INITIAL, finished, block[..]);
      Transform();
    }

    /** Ends the message; the context is not used again. */
    method Final(out: array<byte>)
      requires Valid() && out.Length == 32 && out != block
      modifies this, h, block, out
      ensures out[..] == Hash(old(Message()))
    {
      Wraps8(|Message()|);
      Close(total * 8 % U64);
      StoreHash(out);
    }

    method StoreHash(out: array<byte>)
      requires h.Length == 8 && out.Length == 32
      modifies out
      ensures out[..] == Spread(Words(Value()))
    {
      for i := 0 to 8
        invariant out[..4 * i] == Spread(h[..i])
      {
        var four := Unpack(h[i]);
        out[4 * i], out[4 * i + 1], out[4 * i + 2], out[4 * i + 3] := four[0], four[1], four[2], four[3];
        assert out[..4 * (i + 1)] == out[..4 * i] + four;
        assert h[..i + 1][..i] == h[..i];
      }
      assert h[..8] == Words(Value());
      assert out[..32] == out[..];
    }
  }

  /** The last blocks, once the waiting octets and the end mark are in place. */
  ghost function Closed(finished: seq<byte>, waiting: seq<byte>, length: seq<byte>): seq<byte>
    requires |waiting| <= 56
  {
    finished + ((waiting + Zeros(56 - |waiting|)) + length)
  }

  lemma PadShort(f: seq<byte>, w: seq<byte>, length: seq<byte>)
    requires |f| % 64 == 0 && |w| <= 55 && length == BigEndian(8 * |f + w| % U64)
    ensures Pad(f + w) == Closed(f, w + [0x80], length)
  {
    Modulo(|f|, |w|);
    assert Gap(|f + w|) == 56 - |w + [0x80]|;
  }

  lemma PadLong(f: seq<byte>, w: seq<byte>, length: seq<byte>)
    requires |f| % 64 == 0 && 56 <= |w| < 64 && length == BigEndian(8 * |f + w| % U64)
    ensures Pad(f + w) == Closed(f + ((w + [0x80]) + Zeros(63 - |w|)), [], length)
  {
    Modulo(|f|, |w|);
    assert Zeros(Gap(|f + w|)) == Zeros(63 - |w|) + Zeros(56);
  }

  lemma Modulo(a: nat, b: nat)
    requires a % 64 == 0 && b < 64
    ensures (a + b) % 64 == b
  {
  }

  lemma Wraps8(a: nat)
    ensures a % U64 * 8 % U64 == 8 * a % U64
  {
    var q := a / U64;
    assert 8 * a == a % U64 * 8 + 8 * q * U64;
  }

  lemma Wraps(a: nat, b: nat)
    ensures (a % U64 + b) % U64 == (a + b) % U64
  {
  }

  lemma Sliced(start: seq<byte>, data: seq<byte>, at: nat, take: nat)
    requires at + take <= |data|
    ensures (start + data[..at]) + data[at..at + take] == start + data[..at + take]
  {
  }

  /** The octets spell the number in base 256. */
  function Spelled(s: seq<byte>): nat {
    if s == [] then 0 else 256 * Spelled(s[..|s| - 1]) + s[|s| - 1]
  }

  lemma NextOctet(n: nat, i: nat)
    requires i < 8 && n < U64
    ensures Shifted(n, i) == (if i == 0 then 0 else 256 * Shifted(n, i - 1)) + LengthOctet(n, i)
  {
    assert n / 0x100 / 0x100 == n / 0x1_0000;
  }

  lemma {:induction false} PrefixSpells(n: nat, k: nat, s: seq<byte>)
    requires n < U64 && 0 < k <= 8 && s == BigEndian(n)[..k]
    ensures Spelled(s) == Shifted(n, k - 1)
    decreases k
  {
    assert s[k - 1] == LengthOctet(n, k - 1);
    NextOctet(n, k - 1);
    if k > 1 {
      PrefixSpells(n, k - 1, s[..k - 1]);
    }
  }

  lemma LengthSpells(n: nat, s: seq<byte>)
    requires n < U64 && s == BigEndian(n)
    ensures Spelled(s) == n
  {
    assert s == s[..8];
    PrefixSpells(n, 8, s);
  }

  /**
   The padding of section 5.1.1: whole blocks, the message, a one bit, the fewest zeros, and the
   length.  The standard's 64-bit length is exact for the messages that it admits.
   */
  lemma PadMeetsStandard(m: seq<byte>)
    ensures |Pad(m)| % 64 == 0 && |Pad(m)| == |m| + 1 + Gap(|m|) + 8
    ensures Pad(m)[..|m|] == m && Pad(m)[|m|] == 0x80
    ensures forall i | |m| < i < |Pad(m)| - 8 :: Pad(m)[i] == 0
    ensures forall k | 0 <= k < Gap(|m|) :: !Closes(|m|, k)
    ensures Spelled(Pad(m)[|Pad(m)| - 8..]) == 8 * |m| <==> 8 * |m| < U64
  {
    PadWidth(m);
    GapIsSmallest(|m|);
    var n := 8 * |m| % U64;
    LengthSpells(n, BigEndian(n));
    assert Pad(m)[|Pad(m)| - 8..] == BigEndian(n);
  }

  // ----- Section 2 of RFC 2104

  function XorOctet(a: byte, b: bv8): byte {
    ((a as bv8) ^ b) as int
  }

  function Xor(s: seq<byte>, mask: bv8): (r: seq<byte>)
    ensures |r| == |s|
  {
    seq(|s|, i requires 0 <= i < |s| => XorOctet(s[i], mask))
  }

  /** A key that is not longer than a block is extended with zeros. */
  function Hmac(key: seq<byte>, text: seq<byte>): seq<byte>
    requires |key| <= 64
  {
    var block := key + Zeros(64 - |key|);
    Hash(Xor(block, 0x5c) + Hash(Xor(block, 0x36) + text))
  }

  method HmacParts(key: array<byte>, a: seq<byte>, b: seq<byte>, d: seq<byte>) returns (tag: seq<byte>)
    requires key.Length == 32
    ensures tag == Hmac(key[..], a + b + d)
  {
    var innerKey, outerKey := new byte[64], new byte[64];
    ghost var block := key[..] + Zeros(32);
    for i := 0 to 64
      invariant forall k | 0 <= k < i ::
                  innerKey[k] == XorOctet(block[k], 0x36) && outerKey[k] == XorOctet(block[k], 0x5c)
    {
      var value := if i < 32 then key[i] else 0;
      innerKey[i] := XorOctet(value, 0x36);
      outerKey[i] := XorOctet(value, 0x5c);
    }
    assert innerKey[..] == Xor(block, 0x36) && outerKey[..] == Xor(block, 0x5c);
    var inner := Keyed(innerKey[..], a, b, d);
    tag := Keyed(outerKey[..], inner, [], []);
    assert inner + [] + [] == inner;
  }

  /** The digest of a block-sized key and up to three parts; an empty part is skipped. */
  method Keyed(key: seq<byte>, a: seq<byte>, b: seq<byte>, d: seq<byte>) returns (digest: seq<byte>)
    ensures digest == Hash(key + (a + b + d))
  {
    var c := new Context();
    c.Update(key);
    c.Part(a);
    c.Part(b);
    c.Part(d);
    Joined(key, a, b, d);
    var out := new byte[32];
    c.Final(out);
    digest := out[..];
  }

  lemma Joined(key: seq<byte>, a: seq<byte>, b: seq<byte>, d: seq<byte>)
    ensures ((([] + key) + a) + b) + d == key + (a + b + d)
  {
  }

  lemma FlattenNext(parts: seq<seq<byte>>, i: nat)
    requires i < |parts|
    ensures Flatten(parts[..i + 1]) == Flatten(parts[..i]) + parts[i]
  {
    assert parts[..i + 1] == parts[..i] + [parts[i]];
    FlattenAppend(parts[..i], [parts[i]]);
    assert Flatten([parts[i]]) == parts[i];
  }

  /** However a message is split into updates, the digest is that of the whole message. */
  method HashParts(parts: seq<seq<byte>>) returns (digest: seq<byte>)
    ensures digest == Hash(Flatten(parts))
  {
    assert Flatten(parts[..0]) == [];
    hide Hash, Flatten;
    var c := new Context();
    for i := 0 to |parts|
      invariant c.Valid() && c.Message() == Flatten(parts[..i])
      invariant fresh(c) && fresh(c.h) && fresh(c.block)
    {
      c.Update(parts[i]);
      FlattenNext(parts, i);
    }
    assert parts[..|parts|] == parts;
    var out := new byte[32];
    c.Final(out);
    digest := out[..];
  }
}
