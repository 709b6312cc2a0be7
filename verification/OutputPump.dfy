/**
 The workload-output pump of guest/stage1/main_output_pump.h, wired to the console
 queue by the callback of guest/stage1/init.c.  `Pump` is the meaning of the two
 stream buffers; `OutputPump` moves bytes between arrays in place.
 */
module OutputPumps {
  import opened Bytes
  import opened ConsoleQueues

  const STREAMS := 2
  const BUFFER_BYTES := 4096

  /** What a source answers: bytes it stored, or a negative count.  Zero bytes mean end of file. */
  datatype Reply = Stored(data: seq<byte>) | Errno(code: nat) {
    function Count(): int {
      if Stored? then |data| else 0 - code
    }
  }

  datatype Stream = Stream(inBounds: bool, pending: seq<byte>, eof: bool)

  datatype Pump = Pump(stream0: Stream, stream1: Stream, nextRead: nat, nextWrite: nat, failed: bool) {
    function At(i: nat): Stream {
      if i == 0 then stream0 else stream1
    }

    function With(i: nat, s: Stream): Pump {
      if i == 0 then this.(stream0 := s) else this.(stream1 := s)
    }

    predicate Sound() {
      && nextRead < STREAMS && nextWrite < STREAMS
      && stream0.inBounds && |stream0.pending| <= BUFFER_BYTES
      && stream1.inBounds && |stream1.pending| <= BUFFER_BYTES
    }
  }

  const FRESH_PUMP := Pump(Stream(true, [], false), Stream(true, [], false), 0, 0, false)

  // ----- The sink side

  /** The stream that this tick offers to the sink: the first one with bytes, from `nextWrite` on. */
  function WritePick(p: Pump): (i: nat)
    requires p.Sound()
  {
    var peer := (p.nextWrite + 1) % 2;
    if p.At(p.nextWrite).pending != [] then p.nextWrite
    else if p.At(peer).pending != [] then peer
    else STREAMS
  }

  function Chunk(s: Stream): seq<byte> {
    s.pending[..Min(|s.pending|, QUANTUM)]
  }

  /** Stream `i` after the sink answered `count` to its chunk. */
  function Wrote(p: Pump, i: nat, count: int): Pump
    requires i < STREAMS
  {
    var s := p.At(i);
    if Transient(count) then p
    else if count <= 0 || count > |Chunk(s)| then p.(failed := true)
    else p.With(i, s.(pending := s.pending[count..])).(nextWrite := (i + 1) % 2)
  }

  /** The production sink: the console queue takes the whole chunk or none of it. */
  function Enqueue(c: Console, chunk: seq<Tagged>): (Console, int) {
    if !c.Usable() then (c, -EIO)
    else
      var (next, ok) := DataEnqueued(c, chunk);
      if ok then (next, |chunk|) else (next, if next.Usable() then -EAGAIN else -EIO)
  }

  function WriteSide(p: Pump, c: Console): (Pump, Console)
    requires p.Sound()
  {
    var i := WritePick(p);
    if i == STREAMS then (p, c)
    else
      var (next, count) := Enqueue(c, Tag(Output(i), Chunk(p.At(i))));
      (Wrote(p, i, count), next)
  }

  // ----- The source side

  function Capacity(s: Stream): int {
    Min(BUFFER_BYTES - |s.pending|, QUANTUM)
  }

  predicate Readable(s: Stream) {
    !s.eof && |s.pending| != BUFFER_BYTES
  }

  /** True when the source of a readable stream gives an answer that ends the search. */
  predicate Ends(s: Stream, reply: Reply) {
    Readable(s) && !Transient(reply.Count())
  }

  function Pick(reply0: Reply, reply1: Reply, i: nat): Reply {
    if i == 0 then reply0 else reply1
  }

  /** The stream whose source ends this tick's search, from `nextRead` on. */
  function ReadPick(p: Pump, reply0: Reply, reply1: Reply): (i: nat)
    requires p.Sound()
  {
    var peer := (p.nextRead + 1) % 2;
    if Ends(p.At(p.nextRead), Pick(reply0, reply1, p.nextRead)) then p.nextRead
    else if Ends(p.At(peer), Pick(reply0, reply1, peer)) then peer
    else STREAMS
  }

  predicate Accepts(s: Stream, reply: Reply) {
    0 < reply.Count() <= Capacity(s)
  }

  function Received(p: Pump, i: nat, reply: Reply): Pump
    requires i < STREAMS
  {
    var s := p.At(i);
    if reply.Count() == 0 then p.With(i, s.(eof := true)).(nextRead := (i + 1) % 2)
    else if Accepts(s, reply) then
      p.With(i, s.(pending := s.pending + reply.data)).(nextRead := (i + 1) % 2)
    else p.(failed := true)
  }

  function ReadSide(p: Pump, reply0: Reply, reply1: Reply): Pump
    requires p.Sound()
  {
    var i := ReadPick(p, reply0, reply1);
    if i == STREAMS then p else Received(p, i, Pick(reply0, reply1, i))
  }

  /** The search ends at the second stream only if it did not end at the first. */
  lemma ReadSearch(p: Pump, reply0: Reply, reply1: Reply, attempt: nat, index: nat)
    requires p.Sound() && attempt < 2 && index == (p.nextRead + attempt) % 2
    requires attempt == 1 ==> !Ends(p.At(p.nextRead), Pick(reply0, reply1, p.nextRead))
    ensures Ends(p.At(index), Pick(reply0, reply1, index)) ==>
              ReadSide(p, reply0, reply1) == Received(p, index, Pick(reply0, reply1, index))
    ensures !Ends(p.At(index), Pick(reply0, reply1, index)) ==>
              if attempt == 0 then index == p.nextRead else ReadSide(p, reply0, reply1) == p
  {
  }

  /** One whole tick: at most one sink attempt, then at most one attempt for each source. */
  function Ticked(p: Pump, c: Console, reply0: Reply, reply1: Reply): (Pump, Console) {
    if p.failed then (p, c)
    else if !p.Sound() then (p.(failed := true), c)
    else
      var (written, next) := WriteSide(p, c);
      if written.failed then (written, next) else (ReadSide(written, reply0, reply1), next)
  }

  predicate Drained(p: Pump) {
    && !p.failed && p.Sound()
    && p.stream0.eof && p.stream0.pending == []
    && p.stream1.eof && p.stream1.pending == []
  }

  // ----- The arrays

  class OutputStream {
    const bytes: array<byte>
    var offset: nat
    var used: nat
    var eof: bool

    ghost predicate InBounds()
      reads this
    {
      offset <= used <= BUFFER_BYTES
    }

    ghost function View(): Stream
      reads this, bytes
      requires bytes.Length == BUFFER_BYTES
    {
      Stream(InBounds(), if InBounds() then bytes[offset..used] else [], eof)
    }

    constructor ()
      ensures fresh(bytes) && bytes.Length == BUFFER_BYTES
      ensures View() == Stream(true, [], false)
    {
      bytes := new byte[BUFFER_BYTES](_ => 0);
      offset, used, eof := 0, 0, false;
    }

    /** Moves the pending bytes to the front of the array, left to right over an overlap. */
    method Compact()
      requires bytes.Length == BUFFER_BYTES && InBounds()
      modifies this, bytes
      ensures View() == old(View()) && offset == 0
    {
      var remaining := used - offset;
      var i := 0;
      while i < remaining
        invariant 0 <= i <= remaining
        invariant offset == old(offset) && used == old(used) && eof == old(eof)
        invariant forall k | 0 <= k < i :: bytes[k] == old(bytes[offset + k])
        invariant forall k | offset + i <= k < bytes.Length :: bytes[k] == old(bytes[k])
      {
        bytes[i] := bytes[offset + i];
        i := i + 1;
      }
      assert bytes[..remaining] == old(bytes[offset..used]);
      offset, used := 0, remaining;
    }

    /** Drops the bytes that the sink took. */
    method Consume(count: nat)
      requires bytes.Length == BUFFER_BYTES && InBounds() && count <= used - offset
      modifies this
      ensures View() == old(View()).(pending := old(View()).pending[count..])
    {
      ghost var rest := View().pending[count..];
      assert bytes[offset + count..used] == rest;
      offset := offset + count;
      if offset == used {
        offset, used := 0, 0;
        assert bytes[offset..used] == rest;
      }
      assert View().pending == rest;
    }

    /** The bytes that a source stored behind the pending ones. */
    method Append(data: seq<byte>)
      requires bytes.Length == BUFFER_BYTES && InBounds() && used + |data| <= BUFFER_BYTES
      modifies this, bytes
      ensures View() == old(View()).(pending := old(View()).pending + data)
    {
      var i := 0;
      while i < |data|
        invariant 0 <= i <= |data|
        invariant offset == old(offset) && used == old(used) && eof == old(eof)
        invariant bytes[..used] == old(bytes[..used])
        invariant bytes[used..used + i] == data[..i]
      {
        bytes[used + i] := data[i];
        i := i + 1;
      }
      assert bytes[offset..used] == bytes[..used][offset..];
      assert bytes[offset..used + |data|] == bytes[offset..used] + bytes[used..used + |data|];
      used := used + |data|;
    }

    /** One answer of this stream's source; `fatal` is an answer that breaks the pump. */
    method Receive(reply: Reply) returns (ended: bool, fatal: bool)
      requires bytes.Length == BUFFER_BYTES && InBounds()
      modifies this, bytes
      ensures ended == Ends(old(View()), reply)
      ensures fatal == (ended && reply.Count() != 0 && !Accepts(old(View()), reply))
      ensures !ended || fatal ==> View() == old(View())
      ensures ended && !fatal ==>
                View() == if reply.Count() == 0 then old(View()).(eof := true)
                          else old(View()).(pending := old(View()).pending + reply.data)
    {
      if eof {
        return false, false;
      }
      if offset != 0 {
        Compact();
      }
      if used == BUFFER_BYTES {
        return false, false;
      }
      var capacity := BUFFER_BYTES - used;
      if capacity > QUANTUM {
        capacity := QUANTUM;
      }
      var count := reply.Count();
      if count == 0 {
        eof := true;
        return true, false;
      }
      if count < 0 {
        if count == -EAGAIN || count == -EINTR {
          return false, false;
        }
        return true, true;
      }
      if count > capacity {
        return true, true;
      }
      Append(reply.data);
      return true, false;
    }
  }

  class OutputPump {
    const stream0: OutputStream
    const stream1: OutputStream
    var nextRead: nat
    var nextWrite: nat
    var failed: bool

    ghost predicate Valid()
      reads this
    {
      && stream0 != stream1 && stream0.bytes != stream1.bytes
      && stream0.bytes.Length == BUFFER_BYTES && stream1.bytes.Length == BUFFER_BYTES
    }

    /** The queue's storage is not a stream buffer. */
    ghost predicate Apart(queue: ConsoleQueue) {
      queue.bytes != stream0.bytes && queue.bytes != stream1.bytes
    }

    ghost function View(): Pump
      reads this, stream0, stream0.bytes, stream1, stream1.bytes
      requires Valid()
    {
      Pump(stream0.View(), stream1.View(), nextRead, nextWrite, failed)
    }

    constructor ()
      ensures Valid() && fresh({stream0, stream0.bytes, stream1, stream1.bytes})
      ensures View() == FRESH_PUMP
    {
      stream0 := new OutputStream();
      stream1 := new OutputStream();
      nextRead, nextWrite, failed := 0, 0, false;
    }

    /** Offers one chunk of a stream that has bytes to the sink. */
    method WriteStream(index: nat, queue: ConsoleQueue)
      requires Valid() && queue.Valid() && Apart(queue)
      requires index < STREAMS && View().Sound() && View().At(index).pending != [] && !failed
      modifies this, stream0, stream0.bytes, stream1, stream1.bytes, queue, queue.bytes
      ensures Valid() && queue.Valid()
      ensures var (next, count) := Enqueue(old(queue.View()), Tag(Output(index), Chunk(old(View()).At(index))));
              queue.View() == next && View() == Wrote(old(View()), index, count)
    {
      var stream := if index == 0 then stream0 else stream1;
      var available := stream.used - stream.offset;
      if available > QUANTUM {
        available := QUANTUM;
      }
      var count := Offer(stream, available, queue, Output(index));
      Settle(index, available, count);
    }

    /** The sink sees the chunk and leaves the stream alone. */
    method Offer(stream: OutputStream, available: nat, queue: ConsoleQueue, ghost producer: Source) returns (count: int)
      requires Valid() && queue.Valid() && Apart(queue) && stream in {stream0, stream1}
      requires stream.InBounds() && available == Min(stream.used - stream.offset, QUANTUM)
      modifies queue, queue.bytes
      ensures queue.Valid()
      ensures (queue.View(), count) == Enqueue(old(queue.View()), Tag(producer, Chunk(old(stream.View()))))
    {
      assert stream.bytes[stream.offset..stream.offset + available] == Chunk(stream.View());
      count := Sink(queue, stream.bytes, stream.offset, available, producer);
    }

    /** Books the sink's answer to a chunk of `available` bytes. */
    method Settle(index: nat, available: nat, count: int)
      requires Valid() && index < STREAMS && View().At(index).inBounds && available == |Chunk(View().At(index))|
      modifies this, stream0, stream1
      ensures Valid() && View() == Wrote(old(View()), index, count)
    {
      if count <= 0 || count > available {
        if count == -EAGAIN || count == -EINTR {
          return;
        }
        failed := true;
        return;
      }
      if index == 0 {
        stream0.Consume(count);
      } else {
        stream1.Consume(count);
      }
      nextWrite := (index + 1) % 2;
    }

    method WriteOnce(queue: ConsoleQueue)
      requires Valid() && queue.Valid() && Apart(queue)
      requires View().Sound() && !failed
      modifies this, stream0, stream0.bytes, stream1, stream1.bytes, queue, queue.bytes
      ensures Valid() && queue.Valid()
      ensures (View(), queue.View()) == WriteSide(old(View()), old(queue.View()))
    {
      ghost var p := View();
      var attempt := 0;
      while attempt < STREAMS
        invariant 0 <= attempt <= STREAMS
        invariant unchanged(this, stream0, stream0.bytes, stream1, stream1.bytes, queue, queue.bytes)
        invariant attempt == 1 ==> p.At(p.nextWrite).pending == []
        invariant attempt == 2 ==> WritePick(p) == STREAMS
      {
        var index := (nextWrite + attempt) % 2;
        var stream := if index == 0 then stream0 else stream1;
        assert stream.View() == p.At(index);
        if stream.offset < stream.used {
          assert WritePick(p) == index;
          WriteStream(index, queue);
          return;
        }
        attempt := attempt + 1;
      }
    }

    /** Asks the source of one stream; `ended` says whether the search for bytes is over. */
    method ReadStream(index: nat, reply: Reply) returns (ended: bool)
      requires Valid() && View().Sound() && !failed && index < STREAMS
      modifies this, stream0, stream0.bytes, stream1, stream1.bytes
      ensures Valid() && ended == Ends(old(View()).At(index), reply)
      ensures View() == if ended then Received(old(View()), index, reply) else old(View())
    {
      var fatal;
      if index == 0 {
        ended, fatal := stream0.Receive(reply);
      } else {
        ended, fatal := stream1.Receive(reply);
      }
      if fatal {
        failed := true;
      } else if ended {
        nextRead := (index + 1) % 2;
      }
    }

    method ReadOnce(reply0: Reply, reply1: Reply)
      requires Valid() && View().Sound() && !failed
      modifies this, stream0, stream0.bytes, stream1, stream1.bytes
      ensures Valid() && View() == ReadSide(old(View()), reply0, reply1)
    {
      ghost var p := View();
      var attempt := 0;
      while attempt < STREAMS
        invariant 0 <= attempt <= STREAMS
        invariant View() == p
        invariant attempt == 1 ==> !Ends(p.At(p.nextRead), Pick(reply0, reply1, p.nextRead))
        invariant attempt == 2 ==> ReadSide(p, reply0, reply1) == p
      {
        var index := (nextRead + attempt) % 2;
        ReadSearch(p, reply0, reply1, attempt, index);
        var ended := ReadStream(index, Pick(reply0, reply1, index));
        if ended {
          return;
        }
        attempt := attempt + 1;
      }
    }

    method Tick(queue: ConsoleQueue, reply0: Reply, reply1: Reply) returns (ok: bool)
      requires Valid() && queue.Valid() && Apart(queue)
      modifies this, stream0, stream0.bytes, stream1, stream1.bytes, queue, queue.bytes
      ensures Valid() && queue.Valid()
      ensures (View(), queue.View()) == Ticked(old(View()), old(queue.View()), reply0, reply1)
      ensures ok == !failed
    {
      if failed {
        return false;
      }
      if nextRead >= STREAMS || nextWrite >= STREAMS {
        failed := true;
        return false;
      }
      if stream0.offset > stream0.used || stream0.used > BUFFER_BYTES ||
         stream1.offset > stream1.used || stream1.used > BUFFER_BYTES {
        failed := true;
        return false;
      }
      WriteOnce(queue);
      if !failed {
        ReadOnce(reply0, reply1);
      }
      return !failed;
    }

    method IsDrained() returns (drained: bool)
      requires Valid()
      ensures drained == Drained(View())
    {
      return !failed && nextRead < STREAMS && nextWrite < STREAMS &&
             stream0.eof && stream0.used <= BUFFER_BYTES && stream0.offset == stream0.used &&
             stream1.eof && stream1.used <= BUFFER_BYTES && stream1.offset == stream1.used;
    }
  }

  /** The production sink callback: the queue takes everything, asks for patience, or has failed. */
  method Sink(queue: ConsoleQueue, source: array<byte>, start: nat, size: nat, ghost producer: Source)
    returns (count: int)
    requires queue.Valid() && source != queue.bytes && start + size <= source.Length
    modifies queue, queue.bytes
    ensures queue.Valid()
    ensures (queue.View(), count) == Enqueue(old(queue.View()), Tag(producer, old(source[start..start + size])))
  {
    if queue.failed || queue.offset > queue.used || queue.used > QUEUE_BYTES {
      return -EIO;
    }
    var ok := queue.EnqueueData(source, start, size, producer);
    if !ok {
      if queue.failed || queue.offset > queue.used || queue.used > QUEUE_BYTES {
        return -EIO;
      }
      return -EAGAIN;
    }
    return size;
  }
}
