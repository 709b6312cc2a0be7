/**
 What the turns of the remote-exec job get done.  The safety of the record is proved beside the job;
 here a reachable job and a turn whose environment does its part are related to what the record gains.
 */
module RemoteExecProgress {
  import opened Bytes
  import opened RemoteExecs

  /** The environment kills on request and keeps the job's isolation. */
  predicate Sound(t: Turn) {
    t.killed && t.errorsOk && t.isolation != Broken
  }

  /** The wire takes what is left of the frame in the slot. */
  predicate Frees(j: Job, t: Turn) {
    j.wireUsed == 0 || (t.written > 0 && j.wireSent + t.written >= j.wireUsed)
  }

  predicate Running(j: Job) {
    j.active && (j.phase == 1 || j.phase == 2)
  }

  /** The stream gives nothing this turn, now or ever. */
  predicate Silent(open: bool, reply: Reply) {
    !open || reply == Data([]) || reply == Errno(EAGAIN) || reply == Errno(EINTR)
  }

  predicate Ended(open: bool, reply: Reply) {
    !open || reply == Data([])
  }

  function Relayable(j: Job): int {
    OUTPUT_MAX - Total(j.queued, j.job, 0) - Total(j.queued, j.job, 1)
  }

  function Frame(j: Job, stream: nat, bytes: seq<byte>): Queued
    requires Relayable(j) >= 0
  {
    OutputFrame(j.job, stream, Total(j.queued, j.job, stream), bytes[..Min(|bytes|, Min(1024, Relayable(j)))])
  }

  /** The first reason that was given. */
  function Cause(j: Job, t: Turn): nat {
    if j.reason != 0 then j.reason else if t.late then 1 else 0
  }

  /** Nothing but the wire stands between a running job with a peer and its work. */
  lemma PumpedIsWork(j: Job, t: Turn) returns (d: Job)
    requires Invariant(j) && Running(j) && t.connected && Frees(j, t)
    ensures d == j.(wireUsed := 0, wireSent := d.wireSent) && Pumped(j, t) == Work(d, t)
  {
    hide Work, WellKept, Unheard, AllDelivered, Counting, Cancelled;
    d := Drain(j, t.written).0;
  }

  lemma PastDeadline(d: Job, t: Turn) returns (b: Job)
    requires Running(d) && Sound(t)
    ensures Expire(d, t).1 && Isolate(Expire(d, t).0, t.isolation) == (b, true)
    ensures b == d.(phase := b.phase, killed := b.killed, reason := Cause(d, t)) && (b.phase == 1 || b.phase == 2)
    ensures b.killed == (d.killed || t.late || d.reaped)
    ensures d.phase == 1 && !b.killed && t.isolation != Stalled ==> b.phase == 2
    ensures d.phase == 2 ==> b.phase == 2
  {
    b := Isolate(Expire(d, t).0, t.isolation).0;
  }

  lemma WorkIsRelaying(d: Job, b: Job, t: Turn)
    requires Expire(d, t).1 && Isolate(Expire(d, t).0, t.isolation) == (b, true) && t.errorsOk
    ensures var c := Relay(b, 0, t.reply0, t);
            var e := Relay(c.0, 1, t.reply1, t);
            Work(d, t).0 == (if !c.1 then c.0 else if !e.1 then e.0 else Conclude(e.0, t).0)
  {
    hide Relay, Conclude, Expire, Isolate;
  }

  lemma StillWorking(j: Job, b: Job)
    requires Invariant(j) && Running(j) && Running(b) && !b.pending
    requires b == j.(wireUsed := 0, wireSent := b.wireSent, phase := b.phase, killed := b.killed, reason := b.reason)
    ensures Working(b)
    ensures b.bytes0 == Total(j.queued, j.job, 0) && b.bytes1 == Total(j.queued, j.job, 1)
  {
    hide WellKept, Unheard, AllDelivered, Exited;
  }

  /** A running job as the relaying of its turn finds it. */
  lemma ReachesRelay(j: Job, t: Turn) returns (b: Job)
    requires Invariant(j) && Running(j) && t.connected && Sound(t) && Frees(j, t)
    ensures Working(b) && b.bytes0 == Total(j.queued, j.job, 0) && b.bytes1 == Total(j.queued, j.job, 1)
    ensures j.phase == 1 && !(j.killed || t.late || j.reaped) && t.isolation != Stalled ==> b.phase == 2
    ensures j.phase == 2 ==> b.phase == 2
    ensures b == j.(wireUsed := 0, wireSent := b.wireSent, phase := b.phase, reason := Cause(j, t),
                    killed := j.killed || t.late || j.reaped)
    ensures var c := Relay(b, 0, t.reply0, t);
            var e := Relay(c.0, 1, t.reply1, t);
            Pumped(j, t).0 == (if !c.1 then c.0 else if !e.1 then e.0 else Conclude(e.0, t).0)
  {
    var d := PumpedIsWork(j, t);
    b := PastDeadline(d, t);
    WorkIsRelaying(d, b, t);
    assert !j.pending;
    hide Relay, Conclude, Expire, Isolate, Pumped, Work, Working, Invariant, Total;
    StillWorking(j, b);
  }

  lemma SilentRelay(b: Job, stream: nat, reply: Reply, t: Turn)
    requires b.wireUsed == 0 && Silent(Open(b, stream), reply)
    ensures var (c, ok) := Relay(b, stream, reply, t);
            ok && c == b.(open0 := c.open0, open1 := c.open1, heard := c.heard)
            && c.open0 == (b.open0 && !(stream == 0 && reply == Data([])))
            && c.open1 == (b.open1 && !(stream != 0 && reply == Data([])))
  {
  }

  lemma RelayQueues(b: Job, stream: nat, reply: Reply, t: Turn)
    requires b.wireUsed == 0 && Open(b, stream) && t.connected && b.bytes0 + b.bytes1 < OUTPUT_MAX
    requires reply.Data? && reply.bytes != []
    ensures var (c, ok) := Relay(b, stream, reply, t);
            ok && c.wireUsed > 0 && c.queued == b.queued + [OutputFrame(b.job, stream, Sent(b, stream),
              reply.bytes[..Min(|reply.bytes|, Min(1024, OUTPUT_MAX - b.bytes0 - b.bytes1))])]
  {
  }

  /** A full slot takes nothing more. */
  lemma FullSlot(b: Job, stream: nat, reply: Reply, t: Turn)
    requires b.wireUsed > 0
    ensures Relay(b, stream, reply, t) == Conclude(b, t) == (b, true)
  {
  }

  /** What the first stream returns is put on the wire behind what it returned before. */
  lemma FirstStreamIsRelayed(events: seq<Event>, t: Turn)
    requires var j := Run(IDLE, events);
             && Running(j) && t.connected && Sound(t) && Frees(j, t) && Relayable(j) > 0
             && j.open0 && t.reply0.Data? && t.reply0.bytes != []
    ensures var j := Run(IDLE, events);
            Pumped(j, t).0.queued == j.queued + [Frame(j, 0, t.reply0.bytes)]
  {
    var j := Run(IDLE, events);
    RunKeeps(IDLE, events);
    var b := ReachesRelay(j, t);
    hide Invariant, Working, Run, Total, Relay, Conclude, Pumped;
    RelayQueues(b, 0, t.reply0, t);
    FullSlot(Relay(b, 0, t.reply0, t).0, 1, t.reply1, t);
  }

  /** The second stream has its turn when the first has nothing to say. */
  lemma SecondStreamIsRelayed(events: seq<Event>, t: Turn)
    requires var j := Run(IDLE, events);
             && Running(j) && t.connected && Sound(t) && Frees(j, t) && Relayable(j) > 0
             && Silent(j.open0, t.reply0) && j.open1 && t.reply1.Data? && t.reply1.bytes != []
    ensures var j := Run(IDLE, events);
            Pumped(j, t).0.queued == j.queued + [Frame(j, 1, t.reply1.bytes)]
  {
    var j := Run(IDLE, events);
    RunKeeps(IDLE, events);
    var b := ReachesRelay(j, t);
    hide Invariant, Working, Run, Total, Relay, Conclude, Pumped;
    SilentRelay(b, 0, t.reply0, t);
    var c := Relay(b, 0, t.reply0, t).0;
    RelayQueues(c, 1, t.reply1, t);
    FullSlot(Relay(c, 1, t.reply1, t).0, 1, t.reply1, t);
  }

  /** A reaped job whose streams have ended and whose processes are gone reports, with its totals and its cause. */
  lemma EndedJobReports(events: seq<Event>, t: Turn)
    requires var j := Run(IDLE, events);
             && Running(j) && t.connected && Sound(t) && Frees(j, t) && j.reaped && t.empty && t.removed
             && Ended(j.open0, t.reply0) && Ended(j.open1, t.reply1)
    ensures var j := Run(IDLE, events);
            var k := Pumped(j, t).0;
            && k.queued == j.queued +
               [ExitFrame(j.job, Cause(j, t), Total(j.queued, j.job, 0), Total(j.queued, j.job, 1))]
            && k.phase == 4
  {
    var j := Run(IDLE, events);
    RunKeeps(IDLE, events);
    var b := ReachesRelay(j, t);
    hide Invariant, Working, Run, Total;
  }

  /** The first byte above the limit ends the job: it is killed, and nothing more is read or relayed. */
  lemma OverrunEnds(events: seq<Event>, t: Turn)
    requires var j := Run(IDLE, events);
             && Running(j) && t.connected && Sound(t) && Frees(j, t) && Relayable(j) == 0 && !j.reaped
             && j.open0 && t.reply0.Data? && t.reply0.bytes != []
    ensures var j := Run(IDLE, events);
            var k := Pumped(j, t).0;
            && k.queued == j.queued && k.killed && !k.open0 && !k.open1
            && k.reason == if Cause(j, t) != 0 then Cause(j, t) else 2
  {
    var j := Run(IDLE, events);
    RunKeeps(IDLE, events);
    var b := ReachesRelay(j, t);
    hide Invariant, Working, Run, Total;
  }

  /** The job goes on, and keeps its verdict. */
  predicate Stays(j: Job, k: Job) {
    && Running(k) && !k.pending && k.job == j.job && k.reaped == j.reaped
    && (j.killed ==> k.killed) && (j.reason != 0 ==> k.reason == j.reason) && k.phase == j.phase
  }

  lemma CancelStays(j: Job, reason: nat, killed: bool, open: bool)
    requires Running(j) && !j.pending
    ensures var k := Cancelled(j, reason, killed).0; Stays(j, k) && Stays(j, k.(open0 := open, open1 := open))
  {
  }

  lemma OutputStays(j: Job, stream: nat, data: seq<byte>, frame: nat)
    requires Running(j) && !j.pending
    ensures Stays(j, PutOutput(j, stream, data, frame).0) && Stays(j, CloseStream(j, stream)) && Stays(j, j)
  {
  }

  lemma HandleStays(j: Job, stream: nat, data: seq<byte>, t: Turn)
    requires Running(j) && !j.pending
    ensures Stays(j, Handle(j, stream, data, t).0)
  {
    CancelStays(j, 2, t.killed, false);
    OutputStays(j, stream, data, t.frame);
    hide Cancelled, PutOutput, CloseStream, Stays;
  }

  lemma RelayStays(j: Job, stream: nat, reply: Reply, t: Turn)
    requires Running(j) && !j.pending
    ensures Stays(j, Relay(j, stream, reply, t).0)
  {
    if reply.Data? {
      var data := reply.bytes[..Min(|reply.bytes|, Quota(j))];
      HandleStays(Hear(j, stream, data, t.connected), stream, data, t);
    }
    hide Handle, Quota;
  }

  /** A deadline or the child's end kills the job under the first cause given; a confirmed isolation ends its start. */
  lemma DeadlineKills(events: seq<Event>, t: Turn)
    requires var j := Run(IDLE, events); Running(j) && t.connected && Sound(t) && Frees(j, t)
    ensures var j := Run(IDLE, events);
            var k := Pumped(j, t).0;
            && (j.killed || t.late || j.reaped ==> k.killed)
            && (Cause(j, t) != 0 ==> k.reason == Cause(j, t))
            && (!(j.killed || t.late || j.reaped) && t.isolation != Stalled ==> k.phase != 1)
  {
    var j := Run(IDLE, events);
    RunKeeps(IDLE, events);
    var b := ReachesRelay(j, t);
    hide Run, Invariant, Relay, Conclude, Pumped;
    assert !b.pending by {
      WorkingKeeps(b);
      NotPending(b);
    }
    RelayStays(b, 0, t.reply0, t);
    var c := Relay(b, 0, t.reply0, t).0;
    RelayStays(c, 1, t.reply1, t);
    Concludes(Relay(c, 1, t.reply1, t).0, t);
  }

  lemma Concludes(j: Job, t: Turn)
    ensures var k := Conclude(j, t).0;
            k == j.(phase := k.phase, wireUsed := k.wireUsed, wireSent := k.wireSent, queued := k.queued)
    ensures Conclude(j, t).0.phase in {j.phase, 4}
  {
  }

  lemma NotPending(j: Job)
    requires Invariant(j) && j.active
    ensures !j.pending
  {
  }

  /** A pending job starts while the session is ready. */
  lemma PendingStarts(events: seq<Event>, t: Turn)
    requires var j := Run(IDLE, events); j.pending && t.ready && t.start == Started && t.connected && Sound(t)
    ensures var j := Run(IDLE, events);
            var k := Pumped(j, t).0;
            Running(k) && !k.pending && k.job == j.job
  {
    var j := Run(IDLE, events);
    RunKeeps(IDLE, events);
    LaunchKeeps(j, t);
    var a := Launch(j, t).0;
    StartedTurn(a, t);
    hide Invariant, Work;
  }

  lemma StartedTurn(a: Job, t: Turn)
    requires Invariant(a) && Running(a) && !a.pending && !a.reaped && t.connected && Sound(t)
    ensures Running(Work(a, t).0) && !Work(a, t).0.pending && Work(a, t).0.job == a.job
  {
    var b := PastDeadline(a, t);
    WorkIsRelaying(a, b, t);
    RelayStays(b, 0, t.reply0, t);
    RelayStays(Relay(b, 0, t.reply0, t).0, 1, t.reply1, t);
    hide Invariant, Relay, Expire, Isolate, Work;
  }

  /** A job that was stopped before it ran owes its report, which says so, and pays it once there is a peer. */
  lemma StoppedJobReports(events: seq<Event>, t: Turn)
    requires var j := Run(IDLE, events); j.pending && !t.ready && t.connected
    ensures var j := Run(IDLE, events);
            var k := Pumped(j, t).0;
            k.queued == j.queued + [ExitFrame(j.job, 3, 0, 0)] && k.phase == 4
  {
    var j := Run(IDLE, events);
    RunKeeps(IDLE, events);
    hide Run, WellKept, Unheard, AllDelivered, Counting;
  }

  /** A reported job makes room for the next one as soon as its report is written. */
  lemma ReportedJobLeaves(events: seq<Event>, t: Turn)
    requires var j := Run(IDLE, events); j.active && j.phase == 4 && t.connected && Frees(j, t)
    ensures var j := Run(IDLE, events);
            var k := Pumped(j, t).0;
            !k.active && !k.pending && k.queued == j.queued && Admitted(k).pending
  {
    var j := Run(IDLE, events);
    RunKeeps(IDLE, events);
    hide Run, WellKept, Unheard, AllDelivered, Counting;
  }

  /** A job that loses its peer is killed, and its unsent frame with the peer. */
  lemma LostPeerKills(events: seq<Event>, t: Turn)
    requires var j := Run(IDLE, events); Running(j) && !t.connected && t.killed
    ensures var j := Run(IDLE, events);
            var k := Pumped(j, t).0;
            k.killed && k.wireUsed == 0 && k.queued == j.queued && k.reason == if j.reason != 0 then j.reason else 3
  {
    var j := Run(IDLE, events);
    RunKeeps(IDLE, events);
    var c := Unplug(j, t).0;
    UnplugKeeps(j, t);
    assert Pumped(j, t) == Work(c, t) by {
      hide Work;
    }
    LostWork(c, t);
  }

  /** A killed job that has lost its peer. */
  predicate Lost(c: Job) {
    c.active && !c.pending && c.killed && c.wireUsed == 0 && c.reason != 0
  }

  predicate StaysLost(c: Job, k: Job) {
    Lost(k) && k.queued == c.queued && k.reason == c.reason
  }

  lemma LostExpires(c: Job, t: Turn)
    requires Lost(c)
    ensures Expire(c, t).0 == c && Isolate(c, t.isolation).0 == c
  {
  }

  lemma LostRelays(c: Job, stream: nat, reply: Reply, t: Turn)
    requires Lost(c) && !t.connected
    ensures StaysLost(c, Relay(c, stream, reply, t).0)
  {
  }

  lemma LostConcludes(c: Job, t: Turn)
    requires Lost(c) && !t.connected
    ensures StaysLost(c, Conclude(c, t).0)
  {
  }

  lemma LostWork(c: Job, t: Turn)
    requires Lost(c) && !t.connected
    ensures StaysLost(c, Work(c, t).0)
  {
    LostExpires(c, t);
    LostRelays(c, 0, t.reply0, t);
    var d := Relay(c, 0, t.reply0, t).0;
    LostRelays(d, 1, t.reply1, t);
    LostConcludes(Relay(d, 1, t.reply1, t).0, t);
    hide Relay, Conclude, Expire, Isolate;
  }

  // ----- Turns that fail

  lemma WorkFails(d: Job, t: Turn)
    ensures !t.errorsOk ==> !Work(d, t).1
    ensures t.expired && Work(d, t).0.killed && Work(d, t).0.phase != 4 ==> !Work(d, t).1
  {
    hide Expire, Isolate, Relay, Conclude;
  }

  /** The wire takes nothing of the frame and reports an error, or nothing at all. */
  predicate BreaksWire(j: Job, t: Turn) {
    j.wireUsed > 0 && t.written <= 0 && t.written != -EAGAIN && t.written != -EINTR
  }

  /**
   A turn fails when the wire breaks, when the job's error pipe does, and when a killed job has
   outlived the time of its cleanup.
   */
  lemma BrokenTurnsFail(events: seq<Event>, t: Turn)
    requires var j := Run(IDLE, events); Running(j) && t.connected
    ensures var j := Run(IDLE, events);
            var (k, ok) := Pumped(j, t);
            && (BreaksWire(j, t) ==> !ok)
            && (Frees(j, t) && !t.errorsOk ==> !ok)
            && (Frees(j, t) && t.expired && k.killed && k.phase != 4 ==> !ok)
  {
    var j := Run(IDLE, events);
    RunKeeps(IDLE, events);
    hide Run, Work, WellKept, Unheard, AllDelivered, Counting, Cancelled;
    if Frees(j, t) {
      var d := PumpedIsWork(j, t);
      WorkFails(d, t);
    }
  }
}
