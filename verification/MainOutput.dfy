/**
 The output service loop of guest/stage1/init.c: flush the console once, then tick the
 pump once.  A run is any sequence of ticks and diagnostics, against a source and a sink
 that may stall, split transfers as they like, or fail.
 */
module MainOutputs {
  import opened Bytes
  import opened ConsoleQueues
  import opened OutputPumps

  /** What one step of the world does; `count` is the console's answer to the flush. */
  datatype Event =
    | Service(sinkOpen: bool, count: int, reply0: Reply, reply1: Reply)
    | Note(text: seq<byte>)

  /** The two machines, and everything that ever went in or out of them. */
  datatype State = State(console: Console, pump: Pump, written: seq<Tagged>,
                         read0: seq<byte>, read1: seq<byte>, noted: seq<byte>)

  const START := State(Console(true, [], false), FRESH_PUMP, [], [], [], [])

  /** The bytes that a tick accepts from the source of stream `i`. */
  function TickReads(p: Pump, c: Console, reply0: Reply, reply1: Reply, i: nat): seq<byte> {
    if p.failed || !p.Sound() then []
    else
      var written := WriteSide(p, c).0;
      if written.failed then []
      else
        var reply := Pick(reply0, reply1, i);
        if i < STREAMS && ReadPick(written, reply0, reply1) == i &&
            Accepts(written.At(i), reply) then reply.data else []
  }

  function Step(s: State, e: Event): State {
    match e
    case Note(text) =>
      var (console, ok) := DiagnosticEnqueued(s.console, Tag(Diagnostic, text));
      s.(console := console, noted := if ok then s.noted + text else s.noted)
    case Service(sinkOpen, count, reply0, reply1) =>
      var (flushed, taken, _) := if sinkOpen then Flushed(s.console, count) else (s.console, [], true);
      var t := s.(console := flushed, written := s.written + taken);
      if !flushed.Usable() then t.(pump := t.pump.(failed := true))
      else
        var (pump, console) := Ticked(t.pump, flushed, reply0, reply1);
        t.(pump := pump, console := console,
           read0 := t.read0 + TickReads(t.pump, flushed, reply0, reply1, 0),
           read1 := t.read1 + TickReads(t.pump, flushed, reply0, reply1, 1))
  }

  function Run(s: State, events: seq<Event>): State
    decreases events
  {
    if events == [] then s else Run(Step(s, events[0]), events[1..])
  }

  function Read(s: State, i: nat): seq<byte> {
    if i == 0 then s.read0 else s.read1
  }

  // ----- Conservation

  predicate Known(source: Source) {
    source == Output(0) || source == Output(1) || source == Diagnostic
  }

  ghost predicate Attributed(tagged: seq<Tagged>) {
    forall t | t in tagged :: Known(t.source)
  }

  /** Everything accepted from `source` so far that is written or still queued, in order. */
  function Passed(s: State, source: Source): seq<byte> {
    From(s.written + s.console.queued, source)
  }

  ghost predicate Conserved(s: State) {
    && Read(s, 0) == Passed(s, Output(0)) + s.pump.stream0.pending
    && Read(s, 1) == Passed(s, Output(1)) + s.pump.stream1.pending
    && s.noted == Passed(s, Diagnostic)
    && Attributed(s.written + s.console.queued)
  }

  /** `out` interleaves `a`, `b` and `c`, each in its own order and completely. */
  ghost predicate IsMerge(out: seq<byte>, a: seq<byte>, b: seq<byte>, c: seq<byte>) {
    if out == [] then a == [] && b == [] && c == []
    else
      || (a != [] && a[0] == out[0] && IsMerge(out[1..], a[1..], b, c))
      || (b != [] && b[0] == out[0] && IsMerge(out[1..], a, b[1..], c))
      || (c != [] && c[0] == out[0] && IsMerge(out[1..], a, b, c[1..]))
  }

  lemma {:induction false} AttributedMerges(t: seq<Tagged>)
    requires Attributed(t)
    ensures IsMerge(Untag(t), From(t, Output(0)), From(t, Output(1)), From(t, Diagnostic))
  {
    if t != [] {
      AttributedMerges(t[1..]);
      assert Known(t[0].source);
      assert Untag(t)[1..] == Untag(t[1..]);
      var a, b, c := From(t, Output(0)), From(t, Output(1)), From(t, Diagnostic);
      assert t[0].source == Output(0) ==> a[1..] == From(t[1..], Output(0));
      assert t[0].source == Output(1) ==> b[1..] == From(t[1..], Output(1));
      assert t[0].source == Diagnostic ==> c[1..] == From(t[1..], Diagnostic);
      assert t[0].source != Output(0) ==> a == From(t[1..], Output(0));
      assert t[0].source != Output(1) ==> b == From(t[1..], Output(1));
      assert t[0].source != Diagnostic ==> c == From(t[1..], Diagnostic);
    }
  }

  lemma PassedAppend(t: seq<Tagged>, chunk: seq<Tagged>, source: Source, i: nat, bytes: seq<byte>)
    requires chunk == Tag(Output(i), bytes)
    ensures From(t + chunk, source) == From(t, source) + if source == Output(i) then bytes else []
  {
    FromAppend(t, chunk, source);
    FromTag(bytes, Output(i), source);
  }

  /** What still waits of `source` in the buffers of the pump. */
  function Waiting(p: Pump, source: Source): seq<byte> {
    if source == Output(0) then p.stream0.pending else if source == Output(1) then p.stream1.pending else []
  }

  /** One producer: what leaves its buffer is what enters the queue in its name. */
  lemma WriteConservesOne(p: Pump, c: Console, history: seq<Tagged>, source: Source)
    requires p.Sound() && Known(source)
    ensures var (next, console) := WriteSide(p, c);
            From(history + c.queued, source) + Waiting(p, source) == From(history + console.queued, source) +
                Waiting(next, source)
  {
    hide From;
    var i := WritePick(p);
    if i < STREAMS {
      var chunk := Tag(Output(i), Chunk(p.At(i)));
      var console := WriteSide(p, c).1;
      if console != c {
        assert history + console.queued == (history + c.queued) + chunk;
        PassedAppend(history + c.queued, chunk, source, i, Chunk(p.At(i)));
      }
    }
  }

  lemma WriteKeepsAttributed(p: Pump, c: Console, history: seq<Tagged>)
    requires p.Sound() && Attributed(history + c.queued)
    ensures Attributed(history + WriteSide(p, c).1.queued)
  {
    var i := WritePick(p);
    var console := WriteSide(p, c).1;
    if i < STREAMS && console != c {
      var chunk := Tag(Output(i), Chunk(p.At(i)));
      assert history + console.queued == (history + c.queued) + chunk;
    }
  }

  /** What leaves a stream buffer is exactly what enters the queue, whatever the sink says. */
  lemma WriteConserves(p: Pump, c: Console, history: seq<Tagged>)
    requires p.Sound()
    ensures var (next, console) := WriteSide(p, c);
            && From(history + c.queued, Output(0)) + p.stream0.pending
               == From(history + console.queued, Output(0)) + next.stream0.pending
            && From(history + c.queued, Output(1)) + p.stream1.pending
               == From(history + console.queued, Output(1)) + next.stream1.pending
            && From(history + c.queued, Diagnostic) == From(history + console.queued, Diagnostic)
            && (Attributed(history + c.queued) ==> Attributed(history + console.queued))
  {
    WriteConservesOne(p, c, history, Output(0));
    WriteConservesOne(p, c, history, Output(1));
    WriteConservesOne(p, c, history, Diagnostic);
    var before, after := From(history + c.queued, Diagnostic), From(history + WriteSide(p, c).1.queued, Diagnostic);
    assert before + [] == before && after + [] == after;
    if Attributed(history + c.queued) {
      WriteKeepsAttributed(p, c, history);
    }
  }

  lemma NoteConserves(s: State, text: seq<byte>)
    requires Conserved(s)
    ensures Conserved(Step(s, Note(text)))
  {
    var t := Step(s, Note(text));
    if t.console.queued != s.console.queued {
      var before, chunk := s.written + s.console.queued, Tag(Diagnostic, text);
      assert t.written + t.console.queued == before + chunk;
      FromAppend(before, chunk, Diagnostic);
      FromAppend(before, chunk, Output(0));
      FromAppend(before, chunk, Output(1));
      FromTag(text, Diagnostic, Diagnostic);
      FromTag(text, Diagnostic, Output(0));
      FromTag(text, Diagnostic, Output(1));
    } else if text == [] {
      assert s.noted + text == s.noted;
    }
  }

  /** The bytes that the source of stream `i` adds to the buffers. */
  function Added(p: Pump, reply0: Reply, reply1: Reply, i: nat): seq<byte>
    requires p.Sound() && i < STREAMS
  {
    var reply := Pick(reply0, reply1, i);
    if ReadPick(p, reply0, reply1) == i && Accepts(p.At(i), reply) then reply.data else []
  }

  lemma ReadAdds(p: Pump, reply0: Reply, reply1: Reply)
    requires p.Sound()
    ensures var q := ReadSide(p, reply0, reply1);
            && q.stream0.pending == p.stream0.pending + Added(p, reply0, reply1, 0)
            && q.stream1.pending == p.stream1.pending + Added(p, reply0, reply1, 1)
  {
    assert p.stream0.pending + [] == p.stream0.pending;
    assert p.stream1.pending + [] == p.stream1.pending;
  }

  lemma WriteIsSound(p: Pump, c: Console)
    requires p.Sound()
    ensures WriteSide(p, c).0.Sound()
  {
  }

  /** The sources add to the buffers exactly the bytes that count as read. */
  lemma ReadConserves(p: Pump, c: Console, reply0: Reply, reply1: Reply)
    requires p.Sound() && !p.failed
    ensures var (next, console) := Ticked(p, c, reply0, reply1);
            var written := WriteSide(p, c);
            && console == written.1
            && next.stream0.pending == written.0.stream0.pending + TickReads(p, c, reply0, reply1, 0)
            && next.stream1.pending == written.0.stream1.pending + TickReads(p, c, reply0, reply1, 1)
  {
    var written := WriteSide(p, c).0;
    WriteIsSound(p, c);
    if written.failed {
      assert written.stream0.pending + [] == written.stream0.pending;
      assert written.stream1.pending + [] == written.stream1.pending;
    } else {
      ReadAdds(written, reply0, reply1);
    }
  }

  /** A prefix moved on, and what is behind it grew. */
  lemma Shifted(total: seq<byte>, a: seq<byte>, x: seq<byte>, b: seq<byte>, y: seq<byte>, more: seq<byte>, z: seq<byte>)
    requires total == a + x && a + x == b + y && z == y + more
    ensures total + more == b + z
  {
  }

  lemma TickConserves(s: State, c: Console, reply0: Reply, reply1: Reply)
    requires Conserved(s) && c == s.console
    ensures var (pump, console) := Ticked(s.pump, c, reply0, reply1);
            Conserved(s.(pump := pump, console := console,
                         read0 := s.read0 + TickReads(s.pump, c, reply0, reply1, 0),
                         read1 := s.read1 + TickReads(s.pump, c, reply0, reply1, 1)))
  {
    if s.pump.failed || !s.pump.Sound() {
      assert s.read0 + [] == s.read0 && s.read1 + [] == s.read1;
    } else {
      WriteConserves(s.pump, c, s.written);
      ReadConserves(s.pump, c, reply0, reply1);
      var (pump, console) := Ticked(s.pump, c, reply0, reply1);
      var written := WriteSide(s.pump, c).0;
      Shifted(s.read0, Passed(s, Output(0)), s.pump.stream0.pending, From(s.written + console.queued, Output(0)),
              written.stream0.pending, TickReads(s.pump, c, reply0, reply1, 0), pump.stream0.pending);
      Shifted(s.read1, Passed(s, Output(1)), s.pump.stream1.pending, From(s.written + console.queued, Output(1)),
              written.stream1.pending, TickReads(s.pump, c, reply0, reply1, 1), pump.stream1.pending);
    }
  }

  lemma StepConserves(s: State, e: Event)
    requires Conserved(s)
    ensures Conserved(Step(s, e))
  {
    match e
    case Note(text) => NoteConserves(s, text);
    case Service(sinkOpen, count, reply0, reply1) =>
      var (flushed, taken, _) := if sinkOpen then Flushed(s.console, count) else (s.console, [], true);
      var t := s.(console := flushed, written := s.written + taken);
      assert t.written + flushed.queued == s.written + s.console.queued;
      if flushed.Usable() {
        TickConserves(t, flushed, reply0, reply1);
      }
  }

  lemma {:induction false} RunConserves(s: State, events: seq<Event>)
    requires Conserved(s)
    ensures Conserved(Run(s, events))
    decreases events
  {
    if events != [] {
      StepConserves(s, events[0]);
      RunConserves(Step(s, events[0]), events[1..]);
    }
  }

  /**
   Whatever the source, the sink and the schedule do, the console shows an interleaving of
   a prefix of each stream and of the accepted diagnostics, and the rest of each is exactly
   what waits in the queue followed by what waits in the stream buffer.
   */
  lemma OutputIsConserved(events: seq<Event>)
    ensures var s := Run(START, events);
            && IsMerge(Untag(s.written), From(s.written, Output(0)), From(s.written, Output(1)),
               From(s.written, Diagnostic))
            && s.read0 == From(s.written, Output(0)) + From(s.console.queued, Output(0)) + s.pump.stream0.pending
            && s.read1 == From(s.written, Output(1)) + From(s.console.queued, Output(1)) + s.pump.stream1.pending
            && s.noted == From(s.written, Diagnostic) + From(s.console.queued, Diagnostic)
  {
    RunConserves(START, events);
    var s := Run(START, events);
    FromAppend(s.written, s.console.queued, Output(0));
    FromAppend(s.written, s.console.queued, Output(1));
    FromAppend(s.written, s.console.queued, Diagnostic);
    assert forall t | t in s.written :: t in s.written + s.console.queued;
    AttributedMerges(s.written);
  }

  // ----- Drain

  predicate Healthy(s: State) {
    s.console.Usable() && !s.pump.failed && s.pump.Sound()
  }

  predicate AtEof(s: State) {
    s.pump.stream0.eof && s.pump.stream1.eof
  }

  predicate FullyDrained(s: State) {
    Drained(s.pump) && s.console.Usable() && s.console.queued == []
  }

  function Weight(s: State): nat {
    2 * (|s.pump.stream0.pending| + |s.pump.stream1.pending|) + |s.console.queued|
  }

  /** The sink takes at least one byte whenever it is offered any. */
  predicate Progresses(s: State, e: Event) {
    e.Service? && e.sinkOpen && (s.console.queued == [] || 1 <= e.count <= |Offered(s.console)|)
  }

  function Load(p: Pump): nat {
    |p.stream0.pending| + |p.stream1.pending|
  }

  lemma EndedReadsNothing(p: Pump, reply0: Reply, reply1: Reply)
    requires p.Sound() && p.stream0.eof && p.stream1.eof
    ensures ReadSide(p, reply0, reply1) == p
  {
  }

  /** Writing moves bytes to the queue, and an empty queue takes some. */
  lemma WriteWeight(p: Pump, c: Console)
    requires p.Sound() && !p.failed && c.Usable()
    ensures var (q, d) := WriteSide(p, c);
            && q.Sound() && !q.failed && q.stream0.eof == p.stream0.eof && q.stream1.eof == p.stream1.eof && d.Usable()
            && Load(q) + |d.queued| == Load(p) + |c.queued| && Load(q) <= Load(p)
            && (c.queued == [] && Load(p) > 0 ==> Load(q) < Load(p))
  {
    var i := WritePick(p);
    if i < STREAMS {
      assert 0 < |Tag(Output(i), Chunk(p.At(i)))| <= QUANTUM <= QUEUE_BYTES;
    }
  }

  /** After the end of both streams a tick only writes. */
  lemma TickWrites(p: Pump, c: Console, reply0: Reply, reply1: Reply)
    requires p.Sound() && !p.failed && p.stream0.eof && p.stream1.eof && c.Usable()
    ensures Ticked(p, c, reply0, reply1) == WriteSide(p, c)
  {
    WriteWeight(p, c);
    EndedReadsNothing(WriteSide(p, c).0, reply0, reply1);
  }

  lemma DrainStep(s: State, e: Event)
    requires Healthy(s) && AtEof(s) && !FullyDrained(s) && Progresses(s, e)
    ensures Healthy(Step(s, e)) && AtEof(Step(s, e)) && Weight(Step(s, e)) < Weight(s)
  {
    var flushed := Flushed(s.console, e.count).0;
    assert flushed.Usable() && |flushed.queued| <= |s.console.queued|;
    assert s.console.queued != [] ==> |flushed.queued| < |s.console.queued|;
    WriteWeight(s.pump, flushed);
    TickWrites(s.pump, flushed, e.reply0, e.reply1);
  }

  /** At every point of the run the sink makes progress. */
  ghost predicate ProgressingRun(s: State, events: seq<Event>)
    decreases events
  {
    events == [] || (Progresses(s, events[0]) && ProgressingRun(Step(s, events[0]), events[1..]))
  }

  /** A drained service does not change any more, whatever the world answers. */
  lemma DrainedIsStable(s: State, e: Event)
    requires FullyDrained(s) && e.Service?
    ensures Step(s, e) == s
  {
    assert s.written + [] == s.written;
  }

  lemma {:induction false} DrainBound(s: State, events: seq<Event>)
    requires Healthy(s) && AtEof(s) && ProgressingRun(s, events)
    ensures Healthy(Run(s, events)) && AtEof(Run(s, events))
    ensures FullyDrained(Run(s, events)) || Weight(Run(s, events)) + |events| <= Weight(s)
    ensures |events| > Weight(s) ==> FullyDrained(Run(s, events))
    decreases events
  {
    if events != [] {
      if FullyDrained(s) {
        DrainedIsStable(s, events[0]);
      } else {
        DrainStep(s, events[0]);
      }
      DrainBound(Step(s, events[0]), events[1..]);
    }
  }

  /** Everything that was ever read from a stream, or noted, has been written, and nothing else. */
  ghost predicate Delivered(s: State) {
    && s.read0 == From(s.written, Output(0))
    && s.read1 == From(s.written, Output(1))
    && s.noted == From(s.written, Diagnostic)
    && IsMerge(Untag(s.written), s.read0, s.read1, s.noted)
  }

  lemma DrainedIsDelivered(s: State)
    requires Conserved(s) && s.console.queued == [] && s.pump.stream0.pending == [] && s.pump.stream1.pending == []
    ensures Delivered(s)
  {
    assert s.written + [] == s.written;
    AttributedMerges(s.written);
  }

  /** A run that drains has shown all that it read, and no further service changes that. */
  lemma DrainedRunDelivers(events: seq<Event>, more: Event)
    requires FullyDrained(Run(START, events)) && more.Service?
    ensures Delivered(Run(START, events)) && Step(Run(START, events), more) == Run(START, events)
  {
    RunConserves(START, events);
    DrainedIsDelivered(Run(START, events));
    DrainedIsStable(Run(START, events), more);
  }

  // ----- Fairness

  predicate HasRoom(c: Console) {
    c.Usable() && QUANTUM <= QUEUE_BYTES - |c.queued|
  }

  /** The picked stream hands its whole chunk to a queue that has room for it. */
  lemma Transfer(p: Pump, c: Console)
    requires p.Sound() && HasRoom(c) && WritePick(p) < STREAMS
    ensures var i := WritePick(p);
            var s := p.At(i);
            && From(WriteSide(p, c).1.queued, Output(i)) == From(c.queued, Output(i)) + Chunk(s)
            && WriteSide(p, c).0 == p.With(i, s.(pending := s.pending[|Chunk(s)|..])).(nextWrite := (i + 1) % 2)
  {
    var i := WritePick(p);
    PassedAppend(c.queued, Tag(Output(i), Chunk(p.At(i))), Output(i), i, Chunk(p.At(i)));
  }

  /** Reading keeps what is pending and whose turn it is to write. */
  lemma ReadingKeeps(p: Pump, reply0: Reply, reply1: Reply, i: nat)
    requires p.Sound() && !p.failed && i < STREAMS && !ReadSide(p, reply0, reply1).failed
    ensures var q := ReadSide(p, reply0, reply1);
            q.Sound() && q.nextWrite == p.nextWrite && p.At(i).pending <= q.At(i).pending
  {
  }

  /** After its peer was written, a stream with pending bytes comes first. */
  lemma PeerGoesFirst(p: Pump, c: Console, reply0: Reply, reply1: Reply, i: nat, q: Pump)
    requires p.Sound() && !p.failed && i < STREAMS && p.At(i).pending != [] && WritePick(p) != i && HasRoom(c)
    requires q == Ticked(p, c, reply0, reply1).0 && !q.failed
    ensures q.Sound() && WritePick(q) == i
  {
    hide WriteSide, ReadSide, From;
    Transfer(p, c);
    ReadingKeeps(WriteSide(p, c).0, reply0, reply1, i);
  }

  /** As much as one write may take of what is pending. */
  function Next(s: Stream): seq<byte> {
    if |s.pending| <= 1024 then s.pending else s.pending[..1024]
  }

  /** A stream with pending bytes is written within two ticks, however busy its peer is. */
  lemma WriteIsFair(p: Pump, i: nat, c: Console, reply0: Reply, reply1: Reply,
                    c': Console, reply0': Reply, reply1': Reply)
    requires p.Sound() && !p.failed && i < STREAMS && p.At(i).pending != []
    requires HasRoom(c) && HasRoom(c') && !Ticked(p, c, reply0, reply1).0.failed
    ensures var (q, d) := Ticked(p, c, reply0, reply1);
            || From(d.queued, Output(i)) == From(c.queued, Output(i)) + Next(p.At(i))
            || From(Ticked(q, c', reply0', reply1').1.queued, Output(i)) == From(c'.queued, Output(i)) + Next(q.At(i))
  {
    Transfer(p, c);
    if WritePick(p) != i {
      var q := Ticked(p, c, reply0, reply1).0;
      PeerGoesFirst(p, c, reply0, reply1, i, q);
      Transfer(q, c');
    }
  }

  /** Writing never takes away a stream's turn to be read, nor the room for an answer. */
  lemma WritingKeeps(p: Pump, c: Console, i: nat, reply: Reply)
    requires p.Sound() && !p.failed && i < STREAMS && Readable(p.At(i)) && Accepts(p.At(i), reply)
    ensures var q := WriteSide(p, c).0;
            q.Sound() && q.nextRead == p.nextRead && Readable(q.At(i)) && Accepts(q.At(i), reply)
  {
  }

  /** If another stream was read instead, this one is still readable and now comes first. */
  lemma NextInTurn(p: Pump, reply0: Reply, reply1: Reply, i: nat)
    requires p.Sound() && !p.failed && i < STREAMS && Readable(p.At(i)) && Accepts(p.At(i), Pick(reply0, reply1, i))
    requires ReadPick(p, reply0, reply1) != i && !ReadSide(p, reply0, reply1).failed
    ensures var q := ReadSide(p, reply0, reply1);
            q.Sound() && q.nextRead == i && q.At(i) == p.At(i)
  {
  }

  /** A readable stream whose source has bytes is read within two ticks, whatever its peer does. */
  lemma ReadIsFair(p: Pump, i: nat, c: Console, reply0: Reply, reply1: Reply,
                   c': Console, reply0': Reply, reply1': Reply)
    requires p.Sound() && !p.failed && i < STREAMS && Readable(p.At(i))
    requires var q := Ticked(p, c, reply0, reply1).0;
             && Accepts(p.At(i), Pick(reply0, reply1, i))
             && Accepts(q.At(i), Pick(reply0', reply1', i))
             && !q.failed && !Ticked(q, c', reply0', reply1').0.failed
    ensures var q := Ticked(p, c, reply0, reply1).0;
            || TickReads(p, c, reply0, reply1, i) == Pick(reply0, reply1, i).data
            || TickReads(q, c', reply0', reply1', i) == Pick(reply0', reply1', i).data
  {
    WritingKeeps(p, c, i, Pick(reply0, reply1, i));
    var written := WriteSide(p, c).0;
    if ReadPick(written, reply0, reply1) != i {
      NextInTurn(written, reply0, reply1, i);
      WritingKeeps(ReadSide(written, reply0, reply1), c', i, Pick(reply0', reply1', i));
    }
  }

  // ----- Health

  /** The console answers a flush as a write(2) that works or is put off. */
  predicate GoodFlush(s: State, sinkOpen: bool, count: int) {
    !sinkOpen || s.console.queued == [] || Transient(count) || 1 <= count <= Min(|s.console.queued|, 1024)
  }

  /** A pipe answers a read as one that works, has ended, or is put off. */
  predicate GoodAnswer(s: Stream, reply: Reply) {
    Transient(reply.Count()) || reply == Stored([]) ||
    (reply.Stored? && |reply.data| <= 1024 && |s.pending| + |reply.data| <= 4096)
  }

  predicate Benign(s: State, e: Event) {
    match e
    case Note(text) => |s.console.queued| + |text| <= 16384
    case Service(sinkOpen, count, reply0, reply1) =>
      && GoodFlush(s, sinkOpen, count)
      && GoodAnswer(s.pump.stream0, reply0) && GoodAnswer(s.pump.stream1, reply1)
  }

  /** Writing leaves the pump healthy, and its streams with no more in them. */
  lemma WritingIsHealthy(p: Pump, c: Console, reply0: Reply, reply1: Reply)
    requires p.Sound() && !p.failed && c.Usable() && GoodAnswer(p.stream0, reply0) && GoodAnswer(p.stream1, reply1)
    ensures var (q, d) := WriteSide(p, c);
            && q.Sound() && !q.failed && d.Usable()
            && GoodAnswer(q.stream0, reply0) && GoodAnswer(q.stream1, reply1)
  {
  }

  lemma ReadingIsHealthy(p: Pump, reply0: Reply, reply1: Reply)
    requires p.Sound() && !p.failed && GoodAnswer(p.stream0, reply0) && GoodAnswer(p.stream1, reply1)
    ensures ReadSide(p, reply0, reply1).Sound() && !ReadSide(p, reply0, reply1).failed
  {
  }

  /** A note is taken exactly when there is room for it; otherwise the console fails for good. */
  lemma NoteIsTakenIff(s: State, text: seq<byte>)
    requires s.console.Usable()
    ensures var t := Step(s, Event.Note(text));
            if |s.console.queued| + |text| <= 16384 then
              t == s.(console := s.console.(queued := s.console.queued + Tag(Diagnostic, text)),
                      noted := s.noted + text)
            else t == s.(console := s.console.(failed := true))
  {
  }

  /** A service first shows what has been waiting, as much of it as the console takes, and then moves output up. */
  lemma ServiceShowsWhatWaited(s: State, e: Event)
    requires Healthy(s) && e.Service? && GoodFlush(s, e.sinkOpen, e.count)
    ensures var n := if e.sinkOpen && s.console.queued != [] && e.count > 0 then e.count else 0;
            n <= |s.console.queued| && Step(s, e).written == s.written + s.console.queued[..n]
  {
  }

  /** A healthy service among benign answers stays healthy. */
  lemma BenignStepIsHealthy(s: State, e: Event)
    requires Healthy(s) && Benign(s, e)
    ensures Healthy(Step(s, e))
  {
    match e
    case Note(text) => NoteIsTakenIff(s, text);
    case Service(sinkOpen, count, reply0, reply1) =>
      var c := if sinkOpen then Flushed(s.console, count).0 else s.console;
      WritingIsHealthy(s.pump, c, reply0, reply1);
      ReadingIsHealthy(WriteSide(s.pump, c).0, reply0, reply1);
  }

  predicate BenignRun(s: State, events: seq<Event>)
    decreases events
  {
    events == [] || (Benign(s, events[0]) && BenignRun(Step(s, events[0]), events[1..]))
  }

  /** Over every run, the output fails only where the console, a pipe or an oversized note gives it cause. */
  lemma {:induction false} BenignRunIsHealthy(s: State, events: seq<Event>)
    requires Healthy(s) && BenignRun(s, events)
    ensures Healthy(Run(s, events))
    decreases events
  {
    if events != [] {
      BenignStepIsHealthy(s, events[0]);
      BenignRunIsHealthy(Step(s, events[0]), events[1..]);
    }
  }

  /** The pipe whose turn it is answers with an error that is not put off. */
  predicate BrokenPipe(s: State, e: Event)
    requires e.Service?
  {
    var i := s.pump.nextRead;
    var reply := Pick(e.reply0, e.reply1, i);
    Readable(s.pump.At(i)) && reply.Errno? && reply.code > 0 && !Transient(reply.Count())
  }

  /** A broken answer of the console, or of the pipe whose turn it is, is a failure. */
  lemma BrokenAnswersFail(s: State, e: Event)
    requires Healthy(s) && e.Service?
    ensures !GoodFlush(s, e.sinkOpen, e.count) ==> !Step(s, e).console.Usable()
    ensures GoodFlush(s, e.sinkOpen, e.count) && BrokenPipe(s, e) ==> Step(s, e).pump.failed
  {
    var c := if e.sinkOpen then Flushed(s.console, e.count).0 else s.console;
    if GoodFlush(s, e.sinkOpen, e.count) {
      assert c.Usable();
    }
  }

  /** Writing leaves it to the same stream to be read first. */
  lemma WritingKeepsTurns(p: Pump, c: Console, i: nat)
    requires p.Sound() && !p.failed && i < STREAMS && Readable(p.At(i))
    ensures var q := WriteSide(p, c).0; q.Sound() && q.nextRead == p.nextRead && Readable(q.At(i))
  {
  }

  /** A pipe that has ended is known to have ended within two ticks, whatever its peer does. */
  lemma EndIsFair(p: Pump, i: nat, c: Console, reply0: Reply, reply1: Reply,
                  c': Console, reply0': Reply, reply1': Reply)
    requires p.Sound() && !p.failed && i < STREAMS && Readable(p.At(i))
    requires Pick(reply0, reply1, i) == Pick(reply0', reply1', i) == Stored([])
    requires var q := Ticked(p, c, reply0, reply1).0; !q.failed && !Ticked(q, c', reply0', reply1').0.failed
    ensures var q := Ticked(p, c, reply0, reply1).0;
            q.At(i).eof || Ticked(q, c', reply0', reply1').0.At(i).eof
  {
    hide WriteSide, ReadSide;
    var written := WriteSide(p, c).0;
    WritingKeepsTurns(p, c, i);
    ReadingEnds(written, reply0, reply1, i);
    var q := ReadSide(written, reply0, reply1);
    if !q.At(i).eof && !q.failed {
      WritingKeepsTurns(q, c', i);
      ReadingEnds(WriteSide(q, c').0, reply0', reply1', i);
    }
  }

  /** A search that does not see the end of this pipe leaves it the next turn. */
  lemma ReadingEnds(p: Pump, reply0: Reply, reply1: Reply, i: nat)
    requires p.Sound() && !p.failed && i < STREAMS && Readable(p.At(i)) && Pick(reply0, reply1, i) == Stored([])
    ensures var q := ReadSide(p, reply0, reply1);
            && (p.nextRead == i ==> q.At(i).eof)
            && (!q.failed && !q.At(i).eof ==> q.Sound() && q.nextRead == i && Readable(q.At(i)))
  {
  }

  // ----- The program

  class MainOutput {
    const queue: ConsoleQueue
    const pump: OutputPump
    /** Every byte that the console device has taken. */
    var shown: seq<byte>
    ghost var written: seq<Tagged>
    ghost var read0: seq<byte>
    ghost var read1: seq<byte>
    ghost var noted: seq<byte>

    ghost predicate Valid()
      reads this, queue, queue.bytes, pump
    {
      queue.Valid() && pump.Valid() && pump.Apart(queue) && shown == Untag(written)
    }

    ghost function View(): State
      reads this, queue, queue.bytes, pump, pump.stream0, pump.stream0.bytes, pump.stream1, pump.stream1.bytes
      requires Valid()
    {
      State(queue.View(), pump.View(), written, read0, read1, noted)
    }

    constructor ()
      ensures Valid() && View() == START
    {
      queue := new ConsoleQueue();
      pump := new OutputPump();
      shown, written, read0, read1, noted := [], [], [], [], [];
    }

    method FlushConsole(sinkOpen: bool, count: int)
      requires Valid()
      modifies this, queue
      ensures Valid()
      ensures var (console, taken, _) := if sinkOpen then Flushed(old(queue.View()), count)
              else (old(queue.View()), [], true);
              View() == old(View()).(console := console, written := old(written) + taken)
    {
      if sinkOpen {
        ghost var (_, tagged, _) := Flushed(queue.View(), count);
        var _, taken := queue.FlushTick(count);
        shown := shown + taken;
        written := written + tagged;
        assert Untag(written) == shown;
      } else {
        assert written + [] == written;
      }
    }

    method Service(sinkOpen: bool, count: int, reply0: Reply, reply1: Reply) returns (ok: bool)
      requires Valid()
      modifies this, queue, queue.bytes, pump, pump.stream0, pump.stream0.bytes, pump.stream1, pump.stream1.bytes
      ensures Valid() && View() == Step(old(View()), Event.Service(sinkOpen, count, reply0, reply1))
      ensures ok == (!View().pump.failed && View().console.Usable())
    {
      hide Flushed, Ticked, TickReads;
      FlushConsole(sinkOpen, count);
      if queue.failed || queue.offset > queue.used || queue.used > QUEUE_BYTES {
        pump.failed := true;
        return false;
      }
      ghost var p, c := pump.View(), queue.View();
      read0 := read0 + TickReads(p, c, reply0, reply1, 0);
      read1 := read1 + TickReads(p, c, reply0, reply1, 1);
      ok := pump.Tick(queue, reply0, reply1);
      ok := ok && !queue.failed && queue.offset <= queue.used && queue.used <= QUEUE_BYTES;
    }

    /** A marker of the supervisor. */
    method WriteNote(text: array<byte>) returns (ok: bool)
      requires Valid() && text != queue.bytes
      modifies this, queue, queue.bytes
      ensures Valid() && View() == Step(old(View()), Event.Note(old(text[..])))
      ensures pump.View() == old(pump.View())
    {
      assert text[0..text.Length] == text[..];
      ok := queue.EnqueueDiagnostic(text, 0, text.Length);
      if ok {
        noted := noted + old(text[..]);
      }
    }
  }
}
