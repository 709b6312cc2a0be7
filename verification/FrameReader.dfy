/**
 The incremental length-prefixed frame reader of guest/stage1/init.c.

 `Parse` says what a byte stream means; `FrameReader` consumes the stream one read(2) at a
 time, in whatever pieces and with whatever interruptions the kernel chooses.
 */
module FrameReaders {
  import opened Bytes

  const HEADER_BYTES := 4
  const PAYLOAD_MAX := 65532
  const FRAME_MILLIS := 5000

  // ----- The reference grammar

  /** Big-endian value of four bytes, one shift at a time. */
  function Big(a: int, b: int, c: int, d: int): int {
    256 * (256 * (256 * a + b) + c) + d
  }

  function Size(header: seq<byte>): (size: nat)
    requires |header| == HEADER_BYTES
    ensures size < 0x1_0000_0000
  {
    Big(header[0], header[1], header[2], header[3])
  }

  function Header(size: nat): (header: seq<byte>)
    requires size < 0x1_0000_0000
    ensures |header| == HEADER_BYTES
  {
    [size / 256 / 256 / 256, size / 256 / 256 % 256, size / 256 % 256, size % 256]
  }

  lemma Shift(q: int, r: int)
    requires 0 <= r < 256
    ensures (256 * q + r) / 256 == q && (256 * q + r) % 256 == r
  {
  }

  lemma HeaderSize(header: seq<byte>)
    requires |header| == HEADER_BYTES
    ensures Header(Size(header)) == header
  {
    var a: int, b: int, c: int, d: int := header[0], header[1], header[2], header[3];
    Shift(256 * (256 * a + b) + c, d);
    Shift(256 * a + b, c);
    Shift(a, b);
  }

  lemma SizeHeader(size: nat)
    requires size < 0x1_0000_0000
    ensures Size(Header(size)) == size
  {
  }

  datatype Parsed = Parsed(frames: seq<seq<byte>>, rest: seq<byte>) | Malformed(frames: seq<seq<byte>>)

  predicate ValidSize(size: nat) {
    1 <= size <= PAYLOAD_MAX
  }

  /** The frames that a whole byte stream contains, and its unfinished tail. */
  function Parse(stream: seq<byte>): Parsed
    decreases |stream|
  {
    if |stream| < HEADER_BYTES then Parsed([], stream)
    else
      var size := Size(stream[..HEADER_BYTES]);
      if !ValidSize(size) then Malformed([])
      else if |stream| < HEADER_BYTES + size then Parsed([], stream)
      else
        var tail := Parse(stream[HEADER_BYTES + size..]);
        tail.(frames := [stream[HEADER_BYTES..HEADER_BYTES + size]] + tail.frames)
  }

  /** The first frame of a stream does not depend on what follows it. */
  lemma ParseFirst(a: seq<byte>, b: seq<byte>, n: nat)
    requires |a| >= HEADER_BYTES && n == HEADER_BYTES + Size(a[..HEADER_BYTES]) <= |a| && ValidSize(n - HEADER_BYTES)
    ensures var tail := Parse(a[n..] + b);
            Parse(a + b) == tail.(frames := [a[HEADER_BYTES..n]] + tail.frames)
  {
    assert (a + b)[..HEADER_BYTES] == a[..HEADER_BYTES];
    assert (a + b)[n..] == a[n..] + b;
    assert (a + b)[HEADER_BYTES..n] == a[HEADER_BYTES..n];
  }

  /** The layout of a stream: four octets spell the length of what follows, most significant first, from 1 to 65532. */
  lemma OneFrame(a: byte, b: byte, c: byte, d: byte, payload: seq<byte>, rest: seq<byte>)
    ensures var n := 0x100_0000 * a + 0x1_0000 * b + 0x100 * c + d;
            var parsed := Parse([a, b, c, d] + payload + rest);
            && (n == 0 || n > 65532 ==> parsed == Malformed([]))
            && (1 <= n <= 65532 && |payload| == n ==>
                 parsed == Parse(rest).(frames := [payload] + Parse(rest).frames))
  {
    var s := [a, b, c, d] + payload + rest;
    assert s[..4] == [a, b, c, d];
    assert s[4..4 + |payload|] == payload && s[4 + |payload|..] == rest;
  }

  lemma FramesBehind(a: seq<seq<byte>>, b: seq<seq<byte>>, tail: Parsed)
    ensures tail.(frames := a + (b + tail.frames)) == tail.(frames := (a + b) + tail.frames)
  {
    Associative(a, b, tail.frames);
  }

  /** The first frame of a stream that has one, and what stands behind it. */
  lemma ParseHead(a: seq<byte>) returns (n: nat, rest: seq<byte>)
    requires Parse(a).Parsed? && !(Parse(a).rest == a && Parse(a).frames == [])
    ensures |a| >= HEADER_BYTES && n == HEADER_BYTES + Size(a[..HEADER_BYTES]) <= |a| && ValidSize(n - HEADER_BYTES)
    ensures rest == a[n..] && |rest| < |a| && Parse(rest).Parsed?
    ensures Parse(a).frames == [a[HEADER_BYTES..n]] + Parse(rest).frames && Parse(a).rest == Parse(rest).rest
  {
    n := HEADER_BYTES + Size(a[..HEADER_BYTES]);
    rest := a[n..];
  }

  /** Parsing can stop after any prefix and go on from its unfinished tail. */
  lemma {:induction false} ParseResumes(a: seq<byte>, b: seq<byte>)
    requires Parse(a).Parsed?
    ensures var tail := Parse(Parse(a).rest + b);
            Parse(a + b) == tail.(frames := Parse(a).frames + tail.frames)
    decreases |a|
  {
    var first := Parse(a);
    if first.rest == a && first.frames == [] {
      FramesBehind([], [], Parse(a + b));
    } else {
      var n, rest := ParseHead(a);
      ParseFirst(a, b, n);
      ParseResumes(rest, b);
      FramesBehind([a[HEADER_BYTES..n]], Parse(rest).frames, Parse(first.rest + b));
    }
  }

  // ----- One read(2) at a time

  /** What read(2) answers: bytes, end of file (no bytes), or an errno. */
  datatype Answer = Got(data: seq<byte>) | Errno(code: nat)

  /** One turn of the loop: the clock before it, the caller's slice, the answer, the clock after it. */
  datatype Poll = Poll(now: nat, slice: nat, answer: Answer, later: nat)

  datatype Reader = Reader(header: seq<byte>, expected: nat, payload: seq<byte>, deadline: nat, connected: bool)

  const FRESH_READER := Reader([], 0, [], 0, false)

  datatype Outcome = More | Frame(payload: seq<byte>) | Yield | PeerClosed | Reject

  function Needed(r: Reader): int {
    if r.expected > 0 then r.expected - |r.payload| else HEADER_BYTES - |r.header|
  }

  /** Forgets the unfinished frame, as a peer boundary does. */
  function Cleared(r: Reader): Reader {
    Reader([], 0, [], 0, false)
  }

  function Fed(r: Reader, data: seq<byte>, later: nat): (Reader, Outcome)
    requires 0 < |data| <= Needed(r)
  {
    if r.deadline == 0 && later == 0 then (r, Reject)
    else
      var s := r.(deadline := if r.deadline == 0 then later + FRAME_MILLIS else r.deadline, connected := true);
      if r.expected > 0 then
        var payload := r.payload + data;
        if |payload| == r.expected then (Reader([], 0, [], 0, true), Frame(payload))
        else (s.(payload := payload), More)
      else
        var header := r.header + data;
        if |header| < HEADER_BYTES then (s.(header := header), More)
        else if !ValidSize(Size(header)) then (s.(header := header), Reject)
        else (s.(header := [], expected := Size(header), payload := []), More)
  }

  function Attempt(r: Reader, p: Poll): (Reader, Outcome) {
    if p.now == 0 || (r.deadline > 0 && p.now >= r.deadline) then (r, Reject)
    else if p.slice > 0 && p.now >= p.slice then (r, Yield)
    else match p.answer
      case Errno(code) =>
        if code == EINTR then (r, Yield)
        else if code == EAGAIN then (r, if r.deadline > 0 && p.later >= r.deadline then Reject else Yield)
        else (r, Reject)
      case Got(data) =>
        if data == [] then (Cleared(r), PeerClosed)
        else if |data| > Needed(r) then (r, Reject)
        else Fed(r, data, p.later)
  }

  /** One call: turns until one of them returns.  A script that ends stands for a yield. */
  function Called(r: Reader, polls: seq<Poll>): (Reader, Outcome)
    decreases polls
  {
    if polls == [] then (r, Yield)
    else
      var (next, outcome) := Attempt(r, polls[0]);
      if outcome == More then Called(next, polls[1..]) else (next, outcome)
  }

  /** The reader as the last turn of a call found it. */
  function BeforeClose(r: Reader, polls: seq<Poll>): Reader
    decreases polls
  {
    if polls == [] then r
    else
      var (next, outcome) := Attempt(r, polls[0]);
      if outcome == More then BeforeClose(next, polls[1..]) else r
  }

  /** What a peer boundary throws away. */
  datatype Held = Held(connected: bool, header: nat, payload: nat, expected: nat)

  function HeldBy(r: Reader): Held {
    Held(r.connected, |r.header|, |r.payload|, r.expected)
  }

  // ----- What a reader holds

  /** Zero to three header bytes, or a payload that is still short. */
  predicate Partial(r: Reader) {
    if r.expected == 0 then |r.header| < HEADER_BYTES && r.payload == []
    else r.header == [] && |r.payload| < r.expected <= PAYLOAD_MAX
  }

  function Buffered(r: Reader): seq<byte>
    requires Partial(r)
  {
    if r.expected == 0 then r.header else Header(r.expected) + r.payload
  }

  /** The deadline runs exactly while an unfinished frame is held. */
  predicate Timed(r: Reader)
    requires Partial(r)
  {
    r.deadline > 0 <==> Buffered(r) != []
  }

  /** The check on the discarded byte counts that guards a boundary acknowledgement. */
  predicate Discardable(headerUsed: nat, payloadUsed: nat, expected: nat) {
    || (headerUsed == 0 && payloadUsed == 0 && expected == 0)
    || (1 <= headerUsed <= 3 && payloadUsed == 0 && expected == 0)
    || (headerUsed == 0 && 1 <= expected <= PAYLOAD_MAX && payloadUsed < expected)
  }

  /** The bytes read since the last peer boundary, and the frames they gave. */
  datatype Wire = Wire(reader: Reader, stream: seq<byte>, frames: seq<seq<byte>>, rejected: bool)

  const FRESH_WIRE := Wire(FRESH_READER, [], [], false)

  /** The turn gets as far as read(2). */
  predicate Reads(r: Reader, p: Poll) {
    p.now != 0 && (r.deadline == 0 || p.now < r.deadline) && (p.slice == 0 || p.now < p.slice)
  }

  function Turn(w: Wire, p: Poll): Wire {
    if w.rejected then w
    else
      var (next, outcome) := Attempt(w.reader, p);
      var data := if p.answer.Got? && Reads(w.reader, p) then p.answer.data else [];
      match outcome
      case More => w.(reader := next, stream := w.stream + data)
      case Frame(payload) => w.(reader := next, stream := w.stream + data, frames := w.frames + [payload])
      case Yield => w.(reader := next)
      case PeerClosed => Wire(next, [], [], false)
      case Reject => w.(reader := next, stream := w.stream + data, rejected := true)
  }

  function Turns(w: Wire, polls: seq<Poll>): Wire
    decreases polls
  {
    if polls == [] then w else Turns(Turn(w, polls[0]), polls[1..])
  }

  ghost predicate Faithful(w: Wire) {
    !w.rejected ==> Partial(w.reader) && Timed(w.reader) && Parse(w.stream) == Parsed(w.frames, Buffered(w.reader))
  }

  /**
   What feeding an unfinished frame means: it stays unfinished, or exactly it is finished, or its
   length is invalid, unless the clock behind its first byte fails.
   */
  ghost predicate MeansFeed(r: Reader, data: seq<byte>, later: nat, next: Reader, outcome: Outcome)
    requires Partial(r)
  {
    match outcome
    case More => Partial(next) && Timed(next) && Parse(Buffered(r) + data) == Parsed([], Buffered(next))
    case Frame(payload) => next == FRESH_READER.(connected := true) &&
        Parse(Buffered(r) + data) == Parsed([payload], [])
    case Reject => (r.deadline == 0 && later == 0) || Parse(Buffered(r) + data) == Malformed([])
    case Yield => false
    case PeerClosed => false
  }

  lemma FeedPayload(r: Reader, data: seq<byte>, later: nat)
    requires Partial(r) && r.expected > 0 && 0 < |data| <= Needed(r)
    ensures var (next, outcome) := Fed(r, data, later); MeansFeed(r, data, later, next, outcome)
  {
    ParsePayload(r.expected, r.payload + data);
    assert Header(r.expected) + (r.payload + data) == Buffered(r) + data;
  }

  lemma FeedHeader(r: Reader, data: seq<byte>, later: nat)
    requires Partial(r) && r.expected == 0 && 0 < |data| <= Needed(r)
    ensures var (next, outcome) := Fed(r, data, later); MeansFeed(r, data, later, next, outcome)
  {
    var header := r.header + data;
    if |header| == HEADER_BYTES && ValidSize(Size(header)) {
      HeaderSize(header);
      ParsePayload(Size(header), []);
      assert Header(Size(header)) + [] == header;
    }
  }

  lemma FeedMeaning(r: Reader, data: seq<byte>, later: nat)
    requires Partial(r) && 0 < |data| <= Needed(r)
    ensures var (next, outcome) := Fed(r, data, later); MeansFeed(r, data, later, next, outcome)
  {
    if r.expected > 0 {
      FeedPayload(r, data, later);
    } else {
      FeedHeader(r, data, later);
    }
  }

  /** A header with a payload that is not too long is a frame, or the start of one. */
  lemma ParsePayload(expected: nat, payload: seq<byte>)
    requires ValidSize(expected) && |payload| <= expected
    ensures var stream := Header(expected) + payload;
            Parse(stream) == if |payload| == expected then Parsed([payload], []) else Parsed([], stream)
  {
    var stream := Header(expected) + payload;
    SizeHeader(expected);
    assert stream[..HEADER_BYTES] == Header(expected);
    assert stream[HEADER_BYTES..] == payload;
    if |payload| == expected {
      assert stream[HEADER_BYTES + expected..] == [];
      assert stream[HEADER_BYTES..HEADER_BYTES + expected] == payload;
      assert [payload] + [] == [payload];
    }
  }

  /** Bytes that are fed to the reader. */
  lemma FedFaithful(w: Wire, data: seq<byte>, later: nat, next: Reader, outcome: Outcome)
    requires !w.rejected && Faithful(w) && 0 < |data| <= Needed(w.reader) &&
             (next, outcome) == Fed(w.reader, data, later)
    ensures outcome.More? ==> Faithful(w.(reader := next, stream := w.stream + data))
    ensures outcome.Frame? ==>
              Faithful(w.(reader := next, stream := w.stream + data, frames := w.frames + [outcome.payload]))
  {
    FeedMeaning(w.reader, data, later);
    ParseResumes(w.stream, data);
    if outcome.More? {
      assert w.frames + [] == w.frames;
    }
  }

  lemma TurnFaithful(w: Wire, p: Poll)
    requires Faithful(w)
    ensures Faithful(Turn(w, p))
  {
    if !w.rejected {
      var (next, outcome) := Attempt(w.reader, p);
      if p.answer.Got? && (outcome.More? || outcome.Frame?) {
        FedFaithful(w, p.answer.data, p.later, next, outcome);
      } else {
        assert w.stream + [] == w.stream;
      }
    }
  }

  lemma {:induction false} RunFaithful(w: Wire, polls: seq<Poll>)
    requires Faithful(w)
    ensures Faithful(Turns(w, polls))
    decreases polls
  {
    if polls != [] {
      TurnFaithful(w, polls[0]);
      RunFaithful(Turn(w, polls[0]), polls[1..]);
    }
  }

  // ----- When a run is rejected

  /** The clock fails, the time is up, or the answer is none that read(2) gives to a live channel. */
  predicate Harmful(r: Reader, p: Poll) {
    if p.now == 0 || (r.deadline > 0 && p.now >= r.deadline) then true
    else
      Reads(r, p) &&
      match p.answer
      case Errno(code) => code != EINTR && !(code == EAGAIN && (r.deadline == 0 || p.later < r.deadline))
      case Got(data) => |data| > Needed(r) || (data != [] && r.deadline == 0 && p.later == 0)
  }

  /** Some turn of the run met harm. */
  predicate Harmed(w: Wire, polls: seq<Poll>)
    decreases polls
  {
    polls != [] && !w.rejected && (Harmful(w.reader, polls[0]) || Harmed(Turn(w, polls[0]), polls[1..]))
  }

  /** Without harm the reader is where the parse of its bytes is, also if that is nowhere. */
  ghost predicate Exact(w: Wire) {
    match Parse(w.stream)
    case Parsed(frames, rest) => !w.rejected && w.frames == frames && Partial(w.reader) && Buffered(w.reader) == rest
    case Malformed(frames) => w.rejected && w.frames == frames
  }

  lemma TurnRejects(w: Wire, p: Poll)
    requires Faithful(w) && !w.rejected
    ensures Harmful(w.reader, p) ==> Turn(w, p).rejected
    ensures !Harmful(w.reader, p) ==> Exact(Turn(w, p))
  {
    TurnFaithful(w, p);
    if !Harmful(w.reader, p) && Turn(w, p).rejected {
      FeedMeaning(w.reader, p.answer.data, p.later);
      ParseResumes(w.stream, p.answer.data);
      assert w.frames + [] == w.frames;
    }
  }

  lemma {:induction false} RejectionStays(w: Wire, polls: seq<Poll>)
    requires w.rejected
    ensures Turns(w, polls) == w && !Harmed(w, polls)
    decreases polls
  {
    if polls != [] {
      RejectionStays(w, polls[1..]);
    }
  }

  lemma {:induction false} RunRejects(w: Wire, polls: seq<Poll>)
    requires Faithful(w) && !w.rejected && Exact(w)
    ensures if Harmed(w, polls) then Turns(w, polls).rejected else Exact(Turns(w, polls))
    decreases polls
  {
    if polls != [] {
      var v := Turn(w, polls[0]);
      TurnRejects(w, polls[0]);
      TurnFaithful(w, polls[0]);
      if v.rejected {
        RejectionStays(v, polls[1..]);
      } else {
        RunRejects(v, polls[1..]);
      }
    }
  }

  /**
   For every stream, and every way read(2) splits it, delays it or interrupts it: the frames
   delivered since the last boundary and the bytes still held are the parse of what was read, and
   the deadline runs exactly while some are held.  A run that met no harm is rejected exactly when
   what it read, the last answer included, is malformed, and a run that met harm is rejected.
   */
  lemma ReaderRefinesParse(polls: seq<Poll>)
    ensures var w := Turns(FRESH_WIRE, polls);
            && Faithful(w)
            && (!Harmed(FRESH_WIRE, polls) ==> Exact(w))
            && (w.rejected <==> Harmed(FRESH_WIRE, polls) || Parse(w.stream).Malformed?)
  {
    RunFaithful(FRESH_WIRE, polls);
    RunRejects(FRESH_WIRE, polls);
  }

  /** Nothing is read past an invalid length: what was read before its last byte is well-formed. */
  lemma TurnRejectsAtOnce(w: Wire, p: Poll, k: nat)
    requires Faithful(w) && !w.rejected && !Harmful(w.reader, p) && Turn(w, p).rejected && k < |Turn(w, p).stream|
    ensures Parse(Turn(w, p).stream[..k]).Parsed?
  {
    var all := Turn(w, p).stream;
    if k <= |w.stream| {
      assert all[..k] + w.stream[k..] == w.stream;
      if Parse(all[..k]).Malformed? {
        MalformedStays(all[..k], w.stream[k..]);
      }
    } else {
      var part := p.answer.data[..k - |w.stream|];
      assert all[..k] == w.stream + part;
      ParseResumes(w.stream, part);
    }
  }

  lemma {:induction false} RunRejectsAtOnce(w: Wire, polls: seq<Poll>, k: nat)
    requires Faithful(w) && !w.rejected && !Harmed(w, polls) && Turns(w, polls).rejected && k < |Turns(w, polls).stream|
    ensures Parse(Turns(w, polls).stream[..k]).Parsed?
    decreases polls
  {
    var v := Turn(w, polls[0]);
    TurnFaithful(w, polls[0]);
    if v.rejected {
      RejectionStays(v, polls[1..]);
      TurnRejectsAtOnce(w, polls[0], k);
    } else {
      RunRejectsAtOnce(v, polls[1..], k);
    }
  }

  /** The held bytes determine the reader's buffers. */
  lemma BufferedInjective(r: Reader, s: Reader)
    requires Partial(r) && Partial(s) && Buffered(r) == Buffered(s)
    ensures r.header == s.header && r.expected == s.expected && r.payload == s.payload
  {
    if r.expected > 0 && s.expected > 0 {
      assert Buffered(r)[..HEADER_BYTES] == Header(r.expected) && Buffered(s)[..HEADER_BYTES] == Header(s.expected);
      SizeHeader(r.expected);
      SizeHeader(s.expected);
      assert Buffered(r)[HEADER_BYTES..] == r.payload && Buffered(s)[HEADER_BYTES..] == s.payload;
    }
  }

  /** Two runs without harm that read the same bytes agree on acceptance, on every frame and on every held byte. */
  lemma ChunkingDoesNotMatter(a: seq<Poll>, b: seq<Poll>)
    requires !Harmed(FRESH_WIRE, a) && !Harmed(FRESH_WIRE, b) &&
             Turns(FRESH_WIRE, a).stream == Turns(FRESH_WIRE, b).stream
    ensures var x, y := Turns(FRESH_WIRE, a), Turns(FRESH_WIRE, b);
            && x.rejected == y.rejected && x.frames == y.frames
            && (!x.rejected ==> (x.reader.header, x.reader.expected, x.reader.payload)
                                == (y.reader.header, y.reader.expected, y.reader.payload))
  {
    RunRejects(FRESH_WIRE, a);
    RunRejects(FRESH_WIRE, b);
    if !Turns(FRESH_WIRE, a).rejected {
      BufferedInjective(Turns(FRESH_WIRE, a).reader, Turns(FRESH_WIRE, b).reader);
    }
  }

  /**
   Two runs without harm over one source: if one is rejected, the other is rejected at the very
   same byte, or has not come that far.
   */
  lemma RejectionDoesNotDependOnChunking(a: seq<Poll>, b: seq<Poll>, source: seq<byte>)
    requires !Harmed(FRESH_WIRE, a) && !Harmed(FRESH_WIRE, b)
    requires var x, y := Turns(FRESH_WIRE, a), Turns(FRESH_WIRE, b);
             x.stream <= source && y.stream <= source && x.rejected
    ensures var x, y := Turns(FRESH_WIRE, a), Turns(FRESH_WIRE, b);
            if y.rejected then y.stream == x.stream && y.frames == x.frames else |y.stream| < |x.stream|
  {
    var x, y := Turns(FRESH_WIRE, a), Turns(FRESH_WIRE, b);
    ReaderRefinesParse(a);
    ReaderRefinesParse(b);
    if |y.stream| < |x.stream| {
      RunRejectsAtOnce(FRESH_WIRE, a, |y.stream|);
      assert x.stream[..|y.stream|] == y.stream;
    } else if |x.stream| < |y.stream| {
      assert y.stream[..|x.stream|] == x.stream;
      MalformedStays(x.stream, y.stream[|x.stream|..]);
      assert x.stream + y.stream[|x.stream|..] == y.stream;
      RunRejectsAtOnce(FRESH_WIRE, b, |x.stream|);
    } else {
      assert x.stream == y.stream;
      ChunkingDoesNotMatter(a, b);
    }
  }

  // ----- Calls

  /** How many polls of its script a call takes. */
  function Taken(r: Reader, polls: seq<Poll>): (n: nat)
    ensures n <= |polls|
    decreases polls
  {
    if polls == [] then 0
    else
      var (next, outcome) := Attempt(r, polls[0]);
      if outcome == More then 1 + Taken(next, polls[1..]) else 1
  }

  /** The frames since the last boundary, after one more call. */
  function Delivered(frames: seq<seq<byte>>, outcome: Outcome): seq<seq<byte>> {
    match outcome
    case Frame(payload) => frames + [payload]
    case PeerClosed => []
    case _ => frames
  }

  /** A call is a run of the polls that it takes. */
  lemma {:induction false} CallIsTurns(w: Wire, polls: seq<Poll>)
    requires !w.rejected
    ensures var (next, outcome) := Called(w.reader, polls);
            var v := Turns(w, polls[..Taken(w.reader, polls)]);
            v.reader == next && v.rejected == outcome.Reject? && v.frames == Delivered(w.frames, outcome)
    decreases polls
  {
    if polls != [] {
      var v := Turn(w, polls[0]);
      var (_, outcome) := Attempt(w.reader, polls[0]);
      var n := Taken(w.reader, polls);
      assert polls[..n][1..] == polls[1..][..n - 1];
      if outcome == More {
        CallIsTurns(v, polls[1..]);
      } else {
        assert polls[..1][1..] == [];
      }
    }
  }

  /** One call after the other, up to one that is rejected. */
  function Calls(r: Reader, scripts: seq<seq<Poll>>): (Reader, seq<Outcome>)
    decreases scripts
  {
    if scripts == [] then (r, [])
    else
      var (next, outcome) := Called(r, scripts[0]);
      if outcome.Reject? then (next, [outcome])
      else
        var (last, outcomes) := Calls(next, scripts[1..]);
        (last, [outcome] + outcomes)
  }

  function DeliveredBy(frames: seq<seq<byte>>, outcomes: seq<Outcome>): seq<seq<byte>>
    decreases outcomes
  {
    if outcomes == [] then frames else DeliveredBy(Delivered(frames, outcomes[0]), outcomes[1..])
  }

  lemma {:induction false} TurnsInSequence(w: Wire, a: seq<Poll>, b: seq<Poll>)
    ensures Turns(w, a + b) == Turns(Turns(w, a), b)
    decreases a
  {
    if a == [] {
      assert a + b == b;
    } else {
      assert (a + b)[1..] == a[1..] + b;
      TurnsInSequence(Turn(w, a[0]), a[1..], b);
    }
  }

  /** Whatever is called in whatever order, the calls are one run over the polls that they take. */
  lemma {:induction false} CallsAreTurns(w: Wire, scripts: seq<seq<Poll>>) returns (polls: seq<Poll>)
    requires !w.rejected
    ensures var (last, outcomes) := Calls(w.reader, scripts);
            var v := Turns(w, polls);
            && v.reader == last && v.frames == DeliveredBy(w.frames, outcomes)
            && v.rejected == (outcomes != [] && outcomes[|outcomes| - 1].Reject?)
    decreases scripts
  {
    if scripts == [] {
      polls := [];
    } else {
      polls := scripts[0][..Taken(w.reader, scripts[0])];
      CallIsTurns(w, scripts[0]);
      var v := Turns(w, polls);
      if !v.rejected {
        var more := CallsAreTurns(v, scripts[1..]);
        TurnsInSequence(w, polls, more);
        polls := polls + more;
      }
    }
  }

  /** A stream with an invalid length is never accepted beyond that length, however it is split. */
  lemma InvalidLengthIsRejected(polls: seq<Poll>, prefix: seq<byte>)
    requires Parse(prefix).Malformed?
    ensures var w := Turns(FRESH_WIRE, polls);
            w.rejected || !(prefix <= w.stream)
  {
    var w := Turns(FRESH_WIRE, polls);
    ReaderRefinesParse(polls);
    if prefix <= w.stream {
      MalformedStays(prefix, w.stream[|prefix|..]);
      assert prefix + w.stream[|prefix|..] == w.stream;
    }
  }

  lemma {:induction false} MalformedStays(a: seq<byte>, b: seq<byte>)
    requires Parse(a).Malformed?
    ensures Parse(a + b).Malformed?
    decreases |a|
  {
    assert (a + b)[..HEADER_BYTES] == a[..HEADER_BYTES];
    var n := HEADER_BYTES + Size(a[..HEADER_BYTES]);
    if ValidSize(n - HEADER_BYTES) {
      assert (a + b)[n..] == a[n..] + b;
      MalformedStays(a[n..], b);
    }
  }

  /** Whatever is discarded at a boundary passes the boundary acknowledgement's own check. */
  lemma DiscardAlwaysPasses(polls: seq<Poll>)
    requires !Turns(FRESH_WIRE, polls).rejected
    ensures var r := Turns(FRESH_WIRE, polls).reader;
            Discardable(|r.header|, |r.payload|, r.expected)
  {
    ReaderRefinesParse(polls);
  }

  // ----- The time of a frame

  /** The reader is in the middle of a frame. */
  ghost predicate Holding(w: Wire) {
    !w.rejected && Partial(w.reader) && Buffered(w.reader) != []
  }

  /** The time behind the first byte of the frame that is being read, and zero between frames. */
  ghost function Since(w: Wire, since: nat, p: Poll): nat {
    if !Holding(Turn(w, p)) then 0 else if Holding(w) then since else p.later
  }

  ghost function SinceRun(w: Wire, since: nat, polls: seq<Poll>): nat
    decreases polls
  {
    if polls == [] then since else SinceRun(Turn(w, polls[0]), Since(w, since, polls[0]), polls[1..])
  }

  ghost predicate OnTime(w: Wire, since: nat) {
    && Faithful(w)
    && (Holding(w) ==> since > 0 && w.reader.deadline == since + 5000)
    && (!w.rejected && !Holding(w) ==> w.reader.deadline == 0)
  }

  lemma TurnOnTime(w: Wire, since: nat, p: Poll)
    requires OnTime(w, since)
    ensures OnTime(Turn(w, p), Since(w, since, p))
  {
    TurnFaithful(w, p);
    hide Parse;
    var v := Turn(w, p);
    if Holding(v) && v.reader != w.reader {
      TurnStartsClock(w, since, p);
    }
  }

  /** A turn that is not between frames keeps the deadline, or sets it to five seconds behind its read. */
  lemma TurnStartsClock(w: Wire, since: nat, p: Poll)
    requires OnTime(w, since) && Holding(Turn(w, p)) && Turn(w, p).reader != w.reader
    ensures Turn(w, p).reader.deadline == if Holding(w) then w.reader.deadline else p.later + 5000
    ensures !Holding(w) ==> p.later > 0
  {
    hide Parse;
    var (next, outcome) := Attempt(w.reader, p);
    assert outcome.More? || outcome.Frame?;
  }

  lemma {:induction false} RunOnTime(w: Wire, since: nat, polls: seq<Poll>)
    requires OnTime(w, since)
    ensures OnTime(Turns(w, polls), SinceRun(w, since, polls))
    decreases polls
  {
    hide OnTime, Turn, Since;
    if polls != [] {
      TurnOnTime(w, since, polls[0]);
      RunOnTime(Turn(w, polls[0]), Since(w, since, polls[0]), polls[1..]);
    }
  }

  /** What a read gives the reader: no more than it asked for. */
  predicate Gives(w: Wire, p: Poll) {
    p.answer.Got? && 0 < |p.answer.data| <= Needed(w.reader)
  }

  /**
   In every run, a turn that finds the clock running takes the bytes that it is given exactly within
   five seconds of the first byte of their frame and within the caller's slice; behind the five
   seconds the run is rejected.
   */
  lemma FrameTakesFiveSeconds(polls: seq<Poll>, p: Poll)
    requires Holding(Turns(FRESH_WIRE, polls)) && p.now > 0 && Gives(Turns(FRESH_WIRE, polls), p)
    ensures var w, since := Turns(FRESH_WIRE, polls), SinceRun(FRESH_WIRE, 0, polls);
            && since > 0
            && (p.now >= since + 5000 <==> Turn(w, p) == w.(rejected := true))
            && (p.now < since + 5000 && (p.slice == 0 || p.now < p.slice) <==>
                 Turn(w, p).stream == w.stream + p.answer.data)
  {
    assert Parse([]) == Parsed([], []);
    RunOnTime(FRESH_WIRE, 0, polls);
    var w := Turns(FRESH_WIRE, polls);
    hide Parse, Turns, SinceRun, Faithful;
    assert |w.stream + p.answer.data| > |w.stream|;
  }

  // ----- The program

  class FrameReader {
    const header: array<byte>
    const payload: array<byte>
    var headerUsed: nat
    var payloadExpected: nat
    var payloadUsed: nat
    var frameDeadline: nat
    var connected: bool

    ghost predicate Valid()
      reads this
    {
      && header.Length == HEADER_BYTES && payload.Length == PAYLOAD_MAX && header != payload
      && headerUsed <= HEADER_BYTES && payloadUsed <= payloadExpected <= PAYLOAD_MAX
    }

    ghost function View(): Reader
      reads this, header, payload
      requires Valid()
    {
      Reader(header[..headerUsed], payloadExpected, payload[..payloadUsed], frameDeadline, connected)
    }

    constructor ()
      ensures Valid() && fresh(header) && fresh(payload) && View() == FRESH_READER
    {
      header := new byte[HEADER_BYTES](_ => 0);
      payload := new byte[PAYLOAD_MAX](_ => 0);
      headerUsed, payloadExpected, payloadUsed, frameDeadline, connected := 0, 0, 0, 0, false;
    }

    method Clear()
      requires Valid()
      modifies this
      ensures Valid() && View() == Cleared(old(View()))
    {
      headerUsed, payloadExpected, payloadUsed, frameDeadline, connected := 0, 0, 0, 0, false;
    }

    /** read(2) stores its bytes into one of the two buffers. */
    static method Store(target: array<byte>, start: nat, data: seq<byte>)
      requires start + |data| <= target.Length
      modifies target
      ensures target[..start + |data|] == old(target[..start]) + data
    {
      var i := 0;
      while i < |data|
        invariant 0 <= i <= |data|
        invariant target[..start] == old(target[..start])
        invariant target[start..start + i] == data[..i]
      {
        target[start + i] := data[i];
        i := i + 1;
      }
      assert target[..start + |data|] == target[..start] + target[start..start + |data|];
    }

    /** Counts the bytes that one read returned. */
    method Feed(data: seq<byte>, later: nat) returns (outcome: Outcome)
      requires Valid() && Partial(View()) && 0 < |data| <= Needed(View())
      modifies this, header, payload
      ensures Valid() && (View(), outcome) == Fed(old(View()), data, later)
    {
      if frameDeadline == 0 {
        if later == 0 {
          return Reject;
        }
        frameDeadline := later + FRAME_MILLIS;
      }
      connected := true;
      if payloadExpected > 0 {
        Store(payload, payloadUsed, data);
        payloadUsed := payloadUsed + |data|;
        if payloadUsed == payloadExpected {
          outcome := Frame(payload[..payloadExpected]);
          headerUsed, payloadExpected, payloadUsed, frameDeadline := 0, 0, 0, 0;
          return;
        }
      } else {
        Store(header, headerUsed, data);
        headerUsed := headerUsed + |data|;
        if headerUsed == HEADER_BYTES {
          var size := Big(header[0], header[1], header[2], header[3]);
          if size == 0 || size > PAYLOAD_MAX {
            return Reject;
          }
          payloadExpected, payloadUsed, headerUsed := size, 0, 0;
        }
      }
      return More;
    }

    /** One call; `held` is what the reader held when its last turn began. */
    method ReadControlFrame(polls: seq<Poll>) returns (outcome: Outcome, held: Held)
      requires Valid() && Partial(View())
      modifies this, header, payload
      ensures Valid() && (View(), outcome) == Called(old(View()), polls)
      ensures held == HeldBy(BeforeClose(old(View()), polls))
      ensures outcome != Reject ==> Partial(View())
    {
      var i := 0;
      while i < |polls|
        invariant 0 <= i <= |polls|
        invariant Valid() && Partial(View())
        invariant Called(old(View()), polls) == Called(View(), polls[i..])
        invariant BeforeClose(old(View()), polls) == BeforeClose(View(), polls[i..])
      {
        var p := polls[i];
        i := i + 1;
        assert polls[i - 1..][0] == p && polls[i - 1..][1..] == polls[i..];
        held := Held(connected, headerUsed, payloadUsed, payloadExpected);
        if p.now == 0 || (frameDeadline > 0 && p.now >= frameDeadline) {
          return Reject, held;
        }
        if p.slice > 0 && p.now >= p.slice {
          return Yield, held;
        }
        var needed := if payloadExpected > 0 then payloadExpected - payloadUsed else HEADER_BYTES - headerUsed;
        match p.answer
        case Errno(code) =>
          if code == EINTR {
            return Yield, held;
          }
          if code == EAGAIN {
            return if frameDeadline > 0 && p.later >= frameDeadline then Reject else Yield, held;
          }
          return Reject, held;
        case Got(data) =>
          if data == [] {
            Clear();
            return PeerClosed, held;
          }
          if |data| > needed {
            return Reject, held;
          }
          FeedMeaning(View(), data, p.later);
          outcome := Feed(data, p.later);
          if outcome != More {
            return;
          }
      }
      return Yield, Held(connected, headerUsed, payloadUsed, payloadExpected);
    }
  }
}
