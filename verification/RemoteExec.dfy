/**
 The one remote-exec job of guest/stage1/init.c and what it puts on the wire.

 `Job` is the job's state, `Queued` the record of every frame that was put into the single
 wire slot.  `job` numbers the accepted EXEC requests.
 */
module RemoteExecs {
  import opened Bytes

  const OUTPUT_MAX := 65536
  const CHUNK := 1024

  datatype Queued =
    | OutputFrame(job: nat, stream: nat, offset: nat, data: seq<byte>)
    | ExitFrame(job: nat, reason: nat, stdout: nat, stderr: nat)

  /** What one read of a job's stream returned, and whether there was a peer to hear it. */
  datatype Read = Read(job: nat, stream: nat, data: seq<byte>, connected: bool)

  datatype StartOutcome = NoSession | NoPipes | NotMoved | Started

  datatype Isolation = Isolated | Closed | Stalled | Broken

  datatype Reply = Data(bytes: seq<byte>) | Errno(code: nat)

  /** Everything the environment decides in one turn of the pump. */
  datatype Turn = Turn(ready: bool, connected: bool, start: StartOutcome, killed: bool, written: int,
                       clock: nat, late: bool,
                       isolation: Isolation, errorsOk: bool, reply0: Reply, reply1: Reply,
                       empty: bool, removed: bool, expired: bool, frame: nat)

  datatype Job = Job(pending: bool, active: bool, phase: nat, reaped: bool, killed: bool, reason: nat,
                     bytes0: nat, bytes1: nat, open0: bool, open1: bool, wireUsed: nat, wireSent: nat,
                     job: nat, queued: seq<Queued>, heard: seq<Read>)

  const IDLE := Job(false, false, 0, false, false, 0, 0, 0, false, false, 0, 0, 0, [], [])

  function Sent(j: Job, stream: nat): nat {
    if stream == 0 then j.bytes0 else j.bytes1
  }

  function Open(j: Job, stream: nat): bool {
    if stream == 0 then j.open0 else j.open1
  }

  // ----- The steps

  /** A new EXEC is admitted only when there is no job. */
  function Admitted(j: Job): Job {
    if j.pending || j.active then j else j.(pending := true, job := j.job + 1)
  }

  function Reaped(j: Job): Job {
    if j.active then j.(reaped := true) else j
  }

  function NeverStarted(j: Job, reason: nat): Job {
    j.(pending := false, active := true, phase := 3, reason := reason, bytes0 := 0, bytes1 := 0, wireUsed := 0,
        wireSent := 0)
  }

  function Cancelled(j: Job, reason: nat, killed: bool): (Job, bool) {
    if j.pending && !j.active then (NeverStarted(j, if reason != 0 then reason else 3), true)
    else if j.phase == 3 || !j.active || j.phase == 4 then (j, true)
    else
      var k := if reason != 0 && j.reason == 0 then j.(reason := reason) else j;
      if k.killed then (k, true) else (k.(killed := killed), killed)
  }

  /** A started job with nothing read and nothing open yet. */
  function Cleared(j: Job): Job {
    j.(pending := false, active := true, phase := 1, reaped := false, reason := 0, killed := false,
       bytes0 := 0, bytes1 := 0, open0 := false, open1 := false)
  }

  function Begun(j: Job, start: StartOutcome): (Job, bool) {
    var k := Cleared(j);
    match start
    case NoSession => (k, false)
    case NoPipes => (k.(active := false), false)
    case NotMoved => (k.(open0 := true, open1 := true), false)
    case Started => (k.(open0 := true, open1 := true), true)
  }

  /** The wire slot refuses a frame while an earlier one is in it. */
  function Put(j: Job, frame: Queued, size: nat): (Job, bool) {
    if j.wireUsed > 0 then (j, false)
    else (j.(wireUsed := size + 1, wireSent := 0, queued := j.queued + [frame]), true)
  }

  function PutOutput(j: Job, stream: nat, data: seq<byte>, frame: nat): (Job, bool) {
    var (k, ok) := Put(j, OutputFrame(j.job, stream, Sent(j, stream), data), frame);
    if !ok then (k, false)
    else if stream == 0 then (k.(bytes0 := k.bytes0 + |data|), true)
    else (k.(bytes1 := k.bytes1 + |data|), true)
  }

  function PutExit(j: Job, frame: nat): (Job, bool) {
    if j.phase == 3 && !(j.reason == 3 && j.bytes0 == 0 && j.bytes1 == 0) then (j, false)
    else Put(j, ExitFrame(j.job, j.reason, j.bytes0, j.bytes1), frame)
  }

  /** One nonblocking write of what is left of the frame; zero bytes count as a failure. */
  function Drain(j: Job, written: int): (Job, bool) {
    if j.wireUsed == 0 then (j, true)
    else if written > 0 then
      var sent := Min(j.wireSent + written, j.wireUsed);
      (if sent == j.wireUsed then j.(wireUsed := 0, wireSent := 0) else j.(wireSent := sent), true)
    else (j, written == -EAGAIN || written == -EINTR)
  }

  function Isolate(j: Job, outcome: Isolation): (Job, bool) {
    if j.phase != 1 || j.killed then (j, true)
    else match outcome
      case Isolated => (j.(phase := 2), true)
      case Closed => (j.(phase := 2), true)
      case Stalled => (j, true)
      case Broken => (j, false)
  }

  /** How much one read may ask for: what is left of the quota, or one byte to notice an overrun. */
  function Quota(j: Job): (n: nat)
    ensures n > 0
  {
    var total := j.bytes0 + j.bytes1;
    Min(CHUNK, if total < OUTPUT_MAX then OUTPUT_MAX - total else 1)
  }

  function CloseStream(j: Job, stream: nat): Job {
    if stream == 0 then j.(open0 := false) else j.(open1 := false)
  }

  /** A read is recorded before anything is done with it. */
  function Hear(j: Job, stream: nat, data: seq<byte>, connected: bool): Job {
    j.(heard := j.heard + [Read(j.job, stream, data, connected)])
  }

  /** What becomes of the data that a read returned. */
  function Handle(j: Job, stream: nat, data: seq<byte>, t: Turn): (Job, bool) {
    if data == [] then (CloseStream(j, stream), true)
    else if j.bytes0 + j.bytes1 == OUTPUT_MAX then
      var (k, ok) := Cancelled(j, 2, t.killed);
      if ok then (k.(open0 := false, open1 := false), true) else (k, false)
    else if t.connected then PutOutput(j, stream, data, t.frame)
    else (j, true)
  }

  /** One attempt to relay a stream; a read never returns more than it was asked for. */
  function Relay(j: Job, stream: nat, reply: Reply, t: Turn): (Job, bool) {
    if j.wireUsed > 0 || !Open(j, stream) then (j, true)
    else match reply
      case Errno(code) => (j, code == EAGAIN || code == EINTR)
      case Data(bytes) =>
        var data := bytes[..Min(|bytes|, Quota(j))];
        Handle(Hear(j, stream, data, t.connected), stream, data, t)
  }

  function Conclude(j: Job, t: Turn): (Job, bool) {
    if !(j.reaped && !j.open0 && !j.open1 && j.wireUsed == 0 && t.empty) then (j, true)
    else if !t.removed then (j, false)
    else
      var (k, ok) := if t.connected then PutExit(j, t.frame) else (j, true);
      if ok then (k.(phase := 4), true) else (k, false)
  }

  /** Admission to the wire: a pending job starts, or is cancelled because a STOP came first. */
  function Launch(j: Job, t: Turn): (Job, bool) {
    if !j.pending then (j, true)
    else if !t.ready then Cancelled(j, 3, t.killed)
    else Begun(j, t.start)
  }

  /** A cancelled job that never ran only owes its EXIT. */
  function Owe(j: Job, t: Turn): (Job, bool) {
    if j.phase != 3 then (j, true)
    else
      var (k, ok) := PutExit(j, t.frame);
      if ok then (k.(phase := 4), true) else (k, false)
  }

  /** A lost connection takes the frame in the slot with it. */
  function Unplug(j: Job, t: Turn): (Job, bool) {
    if t.connected then (j, true) else Cancelled(j.(wireUsed := 0, wireSent := 0), 3, t.killed)
  }

  function Expire(j: Job, t: Turn): (Job, bool) {
    var (k, ok) := if t.late then Cancelled(j, 1, t.killed) else (j, true);
    if ok && k.reaped then Cancelled(k, 0, t.killed) else (k, ok)
  }

  /** The part of a turn that a running job takes. */
  function Work(j: Job, t: Turn): (Job, bool) {
    var (a, ok) := Expire(j, t);
    if !ok then (a, false) else
    var (b, isolated) := Isolate(a, t.isolation);
    if !isolated || !t.errorsOk then (b, false) else
    var (c, first) := Relay(b, 0, t.reply0, t);
    if !first then (c, false) else
    var (d, second) := Relay(c, 1, t.reply1, t);
    if !second then (d, false) else
    var (e, concluded) := Conclude(d, t);
    (e, concluded && !(e.killed && e.phase != 4 && t.expired))
  }

  function Pumped(j: Job, t: Turn): (Job, bool) {
    var (a, launched) := Launch(j, t);
    if !launched then (a, false)
    else if !a.active || (a.phase == 3 && !t.connected) then (a, true)
    else
      var (b, owed) := Owe(a, t);
      if !owed then (b, false) else
      var (c, unplugged) := Unplug(b, t);
      if !unplugged then (c, false) else
      var (d, drained) := Drain(c, t.written);
      if !drained then (d, false)
      else if d.phase == 4 then (if d.wireUsed == 0 then d.(active := false) else d, true)
      else Work(d, t)
  }

  // ----- Runs

  datatype Event = Accept | Reap | Cancel(killed: bool) | Pump(turn: Turn)

  /** The supervisor goes on pumping during teardown even after a turn has failed. */
  function Step(j: Job, e: Event): Job {
    match e
    case Accept => Admitted(j)
    case Reap => Reaped(j)
    case Cancel(killed) => Cancelled(j, 3, killed).0
    case Pump(turn) => Pumped(j, turn).0
  }

  function Run(j: Job, events: seq<Event>): Job
    decreases events
  {
    if events == [] then j else Run(Step(j, events[0]), events[1..])
  }

  // ----- What the record says

  /** The bytes of one stream of one job that the record relays. */
  function Relayed(log: seq<Queued>, job: nat, stream: nat): seq<byte> {
    if log == [] then []
    else
      var last := log[|log| - 1];
      Relayed(log[..|log| - 1], job, stream) +
      if last.OutputFrame? && last.job == job && last.stream == stream then last.data else []
  }

  function Total(log: seq<Queued>, job: nat, stream: nat): nat {
    |Relayed(log, job, stream)|
  }

  /** The bytes that the reads of one stream of one job returned while there was a peer. */
  function Spoken(heard: seq<Read>, job: nat, stream: nat): seq<byte> {
    if heard == [] then []
    else
      var last := heard[|heard| - 1];
      Spoken(heard[..|heard| - 1], job, stream) +
      if last.connected && last.job == job && last.stream == stream then last.data else []
  }

  /** Nothing is lost or invented up to the limit, and the limit is used up before anything is lost. */
  ghost predicate Delivered(log: seq<Queued>, heard: seq<Read>, job: nat) {
    var r0, r1, s0, s1 := Relayed(log, job, 0), Relayed(log, job, 1), Spoken(heard, job, 0), Spoken(heard, job, 1);
    if |s0| + |s1| <= OUTPUT_MAX then r0 == s0 && r1 == s1
    else r0 <= s0 && r1 <= s1 && |r0| + |r1| == OUTPUT_MAX
  }

  ghost predicate AllDelivered(log: seq<Queued>, heard: seq<Read>) {
    forall job: nat :: Delivered(log, heard, job)
  }

  predicate Exited(log: seq<Queued>, job: nat) {
    exists i | 0 <= i < |log| :: log[i].ExitFrame? && log[i].job == job
  }

  /** A frame continues the record before it: offsets and counts are the totals so far. */
  predicate Continues(log: seq<Queued>, x: Queued) {
    !Exited(log, x.job) &&
    match x
    case OutputFrame(job, stream, offset, data) =>
      stream <= 1 && data != [] && offset == Total(log, job, stream) &&
          Total(log, job, 0) + Total(log, job, 1) + |data| <= OUTPUT_MAX
    case ExitFrame(job, _, stdout, stderr) => stdout == Total(log, job, 0) && stderr == Total(log, job, 1)
  }

  ghost predicate WellKept(log: seq<Queued>) {
    log == [] || (WellKept(log[..|log| - 1]) && Continues(log[..|log| - 1], log[|log| - 1]))
  }

  /** The current job's counters are the totals of the record, and its EXIT is still to come. */
  ghost predicate Counting(j: Job) {
    && !Exited(j.queued, j.job)
    && j.bytes0 == Total(j.queued, j.job, 0) && j.bytes1 == Total(j.queued, j.job, 1)
    && j.bytes0 + j.bytes1 <= OUTPUT_MAX
  }

  /** No frame of a job that has not begun. */
  ghost predicate Unheard(log: seq<Queued>, job: nat) {
    forall i | 0 <= i < |log| :: log[i].job < job
  }

  ghost predicate Invariant(j: Job) {
    && WellKept(j.queued) && Unheard(j.queued, j.job + 1) && AllDelivered(j.queued, j.heard)
    && (!j.active ==> j.wireUsed == 0)
    && (j.pending ==> !j.active && Unheard(j.queued, j.job))
    && (j.active ==> 1 <= j.phase <= 4)
    && (j.active && j.phase <= 3 ==> Counting(j))
    && (j.active && j.phase == 3 ==> j.reason == 3 && j.bytes0 == 0 && j.bytes1 == 0 && j.wireUsed == 0)
  }

  lemma {:induction false} UnheardTotals(log: seq<Queued>, job: nat)
    requires Unheard(log, job)
    ensures Total(log, job, 0) == 0 && Total(log, job, 1) == 0 && !Exited(log, job)
  {
    if log != [] {
      UnheardTotals(log[..|log| - 1], job);
    }
  }

  lemma TotalGrows(log: seq<Queued>, x: Queued, job: nat, stream: nat)
    ensures Relayed(log + [x], job, stream) ==
            Relayed(log, job, stream) + if x.OutputFrame? && x.job == job && x.stream == stream then x.data else []
  {
    assert (log + [x])[..|log|] == log;
  }

  lemma SpokenGrows(heard: seq<Read>, x: Read, job: nat, stream: nat)
    ensures Spoken(heard + [x], job, stream) ==
            Spoken(heard, job, stream) + if x.connected && x.job == job && x.stream == stream then x.data else []
  {
    assert (heard + [x])[..|heard|] == heard;
  }

  lemma ExitDelivers(log: seq<Queued>, heard: seq<Read>, x: Queued)
    requires AllDelivered(log, heard) && x.ExitFrame?
    ensures AllDelivered(log + [x], heard)
  {
    forall job: nat ensures Delivered(log + [x], heard, job) {
      assert Delivered(log, heard, job);
      TotalGrows(log, x, job, 0);
      TotalGrows(log, x, job, 1);
    }
  }

  /** A read without data or without a peer adds nothing, and one above the limit cannot be relayed. */
  lemma DropDelivers(log: seq<Queued>, heard: seq<Read>, x: Read)
    requires AllDelivered(log, heard)
    requires !x.connected || x.data == [] || Total(log, x.job, 0) + Total(log, x.job, 1) == OUTPUT_MAX
    ensures AllDelivered(log, heard + [x])
  {
    forall job: nat ensures Delivered(log, heard + [x], job) {
      assert Delivered(log, heard, job);
      SpokenGrows(heard, x, job, 0);
      SpokenGrows(heard, x, job, 1);
    }
  }

  lemma OutputDelivers(log: seq<Queued>, heard: seq<Read>, x: Queued, r: Read)
    requires AllDelivered(log, heard) && x.OutputFrame? && r == Read(x.job, x.stream, x.data, true) && x.stream <= 1
    requires Total(log, x.job, 0) + Total(log, x.job, 1) + |x.data| <= OUTPUT_MAX && x.data != []
    ensures AllDelivered(log + [x], heard + [r])
  {
    forall job: nat ensures Delivered(log + [x], heard + [r], job) {
      assert Delivered(log, heard, job);
      TotalGrows(log, x, job, 0);
      TotalGrows(log, x, job, 1);
      SpokenGrows(heard, r, job, 0);
      SpokenGrows(heard, r, job, 1);
    }
  }

  lemma ExitedGrows(log: seq<Queued>, x: Queued, job: nat)
    ensures Exited(log + [x], job) == (Exited(log, job) || (x.ExitFrame? && x.job == job))
  {
    var more := log + [x];
    assert more[|log|] == x;
    if Exited(log, job) {
      var i :| 0 <= i < |log| && log[i].ExitFrame? && log[i].job == job;
      assert more[i] == log[i];
    }
    if Exited(more, job) {
      var i :| 0 <= i < |more| && more[i].ExitFrame? && more[i].job == job;
      assert i < |log| ==> log[i] == more[i];
    }
  }

  lemma UnheardGrows(log: seq<Queued>, x: Queued, job: nat)
    requires Unheard(log, job) && x.job < job
    ensures Unheard(log + [x], job)
  {
  }

  lemma RecordGrows(log: seq<Queued>, x: Queued)
    requires WellKept(log) && Continues(log, x)
    ensures WellKept(log + [x])
  {
    assert (log + [x])[..|log|] == log;
  }

  // ----- Every step keeps the record

  /** A job whose relaying is going on. */
  ghost predicate Working(j: Job) {
    Invariant(j) && j.active && (j.phase == 1 || j.phase == 2)
  }

  lemma CancelKeeps(j: Job, reason: nat, killed: bool)
    requires Invariant(j) && (j.pending ==> reason == 3)
    ensures var k := Cancelled(j, reason, killed).0;
            && Invariant(k) && !k.pending && (j.active ==> k.active) && k.queued == j.queued && k.job == j.job
            && k.bytes0 + k.bytes1 <= j.bytes0 + j.bytes1
            && (j.active ==> k.phase == j.phase && k.wireUsed == j.wireUsed) && k.heard == j.heard
            && (j.wireUsed == 0 ==> k.wireUsed == 0)
  {
    if j.pending {
      UnheardTotals(j.queued, j.job);
    }
  }

  lemma LaunchKeeps(j: Job, t: Turn)
    requires Invariant(j)
    ensures var k := Launch(j, t).0; Invariant(k) && !k.pending && (j.pending && k.active ==> k.wireUsed == 0)
  {
    if j.pending {
      UnheardTotals(j.queued, j.job);
      if !t.ready {
        CancelKeeps(j, 3, t.killed);
      }
    }
  }

  /** The EXIT of a job takes the job's counters as the record has them. */
  lemma ExitKeeps(j: Job, frame: nat)
    requires Invariant(j) && j.active && j.phase <= 3 && j.wireUsed == 0
    ensures var (k, ok) := PutExit(j, frame);
            ok && Invariant(k.(phase := 4)) && k == j.(wireUsed := frame + 1, wireSent := 0, queued := k.queued)
  {
    RecordGrows(j.queued, ExitFrame(j.job, j.reason, j.bytes0, j.bytes1));
    ExitDelivers(j.queued, j.heard, ExitFrame(j.job, j.reason, j.bytes0, j.bytes1));
  }

  /** The counters and the record grow by the same chunk. */
  lemma CountersGrow(log: seq<Queued>, x: Queued)
    requires WellKept(log) && x.OutputFrame? && Continues(log, x)
    ensures WellKept(log + [x]) && !Exited(log + [x], x.job)
    ensures Total(log + [x], x.job, x.stream) == Total(log, x.job, x.stream) + |x.data|
    ensures Total(log + [x], x.job, 1 - x.stream) == Total(log, x.job, 1 - x.stream)
  {
    RecordGrows(log, x);
    TotalGrows(log, x, x.job, x.stream);
    TotalGrows(log, x, x.job, 1 - x.stream);
    ExitedGrows(log, x, x.job);
  }

  lemma OutputCounts(j: Job, k: Job, stream: nat, data: seq<byte>)
    requires Counting(j) && WellKept(j.queued) && Unheard(j.queued, j.job + 1)
    requires stream <= 1 && data != [] && j.bytes0 + j.bytes1 + |data| <= OUTPUT_MAX
    requires k.queued == j.queued + [OutputFrame(j.job, stream, Sent(j, stream), data)] && k.job == j.job
    requires Sent(k, stream) == Sent(j, stream) + |data| && Sent(k, 1 - stream) == Sent(j, 1 - stream)
    ensures Counting(k) && WellKept(k.queued) && Unheard(k.queued, k.job + 1)
  {
    var x := OutputFrame(j.job, stream, Sent(j, stream), data);
    CountersGrow(j.queued, x);
    UnheardGrows(j.queued, x, j.job + 1);
  }

  lemma OutputKeeps(j: Job, stream: nat, data: seq<byte>, frame: nat)
    requires Working(j) && j.wireUsed == 0 && stream <= 1 && data != []
    requires j.bytes0 + j.bytes1 + |data| <= OUTPUT_MAX
    ensures var (k, ok) := PutOutput(Hear(j, stream, data, true), stream, data, frame); ok && Working(k)
  {
    hide Counting, WellKept, Unheard, AllDelivered;
    var h := Hear(j, stream, data, true);
    OutputHeard(j, stream, data);
    assert Counting(h) by {
      CountingSame(j, h);
    }
    OutputCounts(h, PutOutput(h, stream, data, frame).0, stream, data);
  }

  lemma CountingSame(j: Job, k: Job)
    requires Counting(j) && k.queued == j.queued && k.job == j.job && k.bytes0 == j.bytes0 && k.bytes1 == j.bytes1
    ensures Counting(k)
  {
  }

  lemma OutputHeard(j: Job, stream: nat, data: seq<byte>)
    requires Counting(j) && AllDelivered(j.queued, j.heard)
    requires stream <= 1 && data != [] && j.bytes0 + j.bytes1 + |data| <= OUTPUT_MAX
    ensures AllDelivered(j.queued + [OutputFrame(j.job, stream, Sent(j, stream), data)],
              j.heard + [Read(j.job, stream, data, true)])
  {
    var x := OutputFrame(j.job, stream, Sent(j, stream), data);
    OutputDelivers(j.queued, j.heard, x, Read(j.job, stream, data, true));
  }

  lemma DropKeeps(j: Job, stream: nat, data: seq<byte>, connected: bool)
    requires Working(j) && (!connected || data == [] || j.bytes0 + j.bytes1 == OUTPUT_MAX)
    ensures Working(Hear(j, stream, data, connected))
  {
    DropDelivers(j.queued, j.heard, Read(j.job, stream, data, connected));
  }

  lemma CancelKeepsWorking(j: Job, reason: nat, killed: bool, open0: bool, open1: bool)
    requires Working(j) && reason != 0
    ensures var k := Cancelled(j, reason, killed).0; Working(k) && Working(k.(open0 := open0, open1 := open1))
  {
    CancelKeeps(j, reason, killed);
  }

  lemma CloseKeepsWorking(j: Job, stream: nat)
    requires Working(j)
    ensures Working(CloseStream(j, stream))
  {
  }

  lemma WithinQuota(j: Job)
    requires Working(j)
    ensures Quota(j) > 0 && (j.bytes0 + j.bytes1 != OUTPUT_MAX ==> j.bytes0 + j.bytes1 + Quota(j) <= OUTPUT_MAX)
  {
  }

  lemma HandleKeeps(j: Job, stream: nat, data: seq<byte>, t: Turn)
    requires Working(j) && j.wireUsed == 0 && stream <= 1
    requires j.bytes0 + j.bytes1 == OUTPUT_MAX || j.bytes0 + j.bytes1 + |data| <= OUTPUT_MAX
    ensures Working(Handle(Hear(j, stream, data, t.connected), stream, data, t).0)
  {
    hide Working, Cancelled, PutOutput, CloseStream;
    var h := Hear(j, stream, data, t.connected);
    if data == [] {
      DropKeeps(j, stream, data, t.connected);
      CloseKeepsWorking(h, stream);
    } else if j.bytes0 + j.bytes1 == OUTPUT_MAX {
      DropKeeps(j, stream, data, t.connected);
      CancelKeepsWorking(h, 2, t.killed, false, false);
    } else if t.connected {
      OutputKeeps(j, stream, data, t.frame);
    } else {
      DropKeeps(j, stream, data, false);
    }
  }

  lemma RelayKeeps(j: Job, stream: nat, reply: Reply, t: Turn)
    requires Working(j) && stream <= 1
    ensures Working(Relay(j, stream, reply, t).0)
  {
    hide Working, Handle, Hear, Quota;
    if j.wireUsed == 0 && Open(j, stream) && reply.Data? {
      WithinQuota(j);
      HandleKeeps(j, stream, reply.bytes[..Min(|reply.bytes|, Quota(j))], t);
    }
  }

  lemma ConcludeKeeps(j: Job, t: Turn)
    requires Working(j)
    ensures Invariant(Conclude(j, t).0)
  {
    if j.wireUsed == 0 {
      ExitKeeps(j, t.frame);
    }
  }

  lemma ExpireKeeps(j: Job, t: Turn)
    requires Working(j)
    ensures Working(Expire(j, t).0)
  {
    CancelKeeps(j, 1, t.killed);
    var k := if t.late then Cancelled(j, 1, t.killed).0 else j;
    CancelKeeps(k, 0, t.killed);
  }

  lemma IsolateKeeps(j: Job, outcome: Isolation)
    requires Working(j)
    ensures Working(Isolate(j, outcome).0)
  {
  }

  lemma WorkingKeeps(j: Job)
    requires Working(j)
    ensures Invariant(j)
  {
  }

  lemma WorkKeeps(j: Job, t: Turn)
    requires Working(j)
    ensures Invariant(Work(j, t).0)
  {
    hide Expire, Isolate, Relay, Conclude, Working, Invariant;
    ExpireKeeps(j, t);
    var a := Expire(j, t).0;
    var b := Isolate(a, t.isolation).0;
    IsolateKeeps(a, t.isolation);
    WorkingKeeps(b);
    RelayKeeps(b, 0, t.reply0, t);
    var c := Relay(b, 0, t.reply0, t).0;
    RelayKeeps(c, 1, t.reply1, t);
    var d := Relay(c, 1, t.reply1, t).0;
    ConcludeKeeps(d, t);
    WorkingKeeps(a);
    WorkingKeeps(c);
    WorkingKeeps(d);
  }

  lemma OweKeeps(j: Job, t: Turn)
    requires Invariant(j) && j.active
    ensures var (k, ok) := Owe(j, t); ok && Invariant(k) && k.active && k.phase != 3
  {
    if j.phase == 3 {
      ExitKeeps(j, t.frame);
    }
  }

  lemma UnplugKeeps(j: Job, t: Turn)
    requires Invariant(j) && j.active && j.phase != 3
    ensures var k := Unplug(j, t).0; Invariant(k) && k.active && k.phase == j.phase
  {
    CancelKeeps(j.(wireUsed := 0, wireSent := 0), 3, t.killed);
  }

  lemma DrainKeeps(j: Job, written: int)
    requires Invariant(j) && j.active && j.phase != 3
    ensures var k := Drain(j, written).0; Invariant(k) && k.active && k.phase == j.phase
  {
  }

  /** Between admission and work: the owed EXIT, the lost connection and the wire. */
  lemma PlumbingKeeps(j: Job, t: Turn)
    requires Invariant(j) && j.active
    ensures var (b, owed) := Owe(j, t);
            var c := Unplug(b, t).0;
            var d := Drain(c, t.written).0;
            owed && Invariant(b) && Invariant(c) && Invariant(d) && d.active && d.phase != 3
  {
    OweKeeps(j, t);
    UnplugKeeps(Owe(j, t).0, t);
    DrainKeeps(Unplug(Owe(j, t).0, t).0, t.written);
  }

  lemma PumpKeeps(j: Job, t: Turn)
    requires Invariant(j)
    ensures Invariant(Pumped(j, t).0)
  {
    LaunchKeeps(j, t);
    var a := Launch(j, t).0;
    if a.active && !(a.phase == 3 && !t.connected) {
      PlumbingKeeps(a, t);
      var d := Drain(Unplug(Owe(a, t).0, t).0, t.written).0;
      if d.phase != 4 {
        WorkKeeps(d, t);
      }
    }
  }

  lemma StepKeeps(j: Job, e: Event)
    requires Invariant(j)
    ensures Invariant(Step(j, e))
  {
    match e
    case Accept =>
    case Reap =>
    case Cancel(killed) => CancelKeeps(j, 3, killed);
    case Pump(turn) => PumpKeeps(j, turn);
  }

  lemma {:induction false} RunKeeps(j: Job, events: seq<Event>)
    requires Invariant(j)
    ensures Invariant(Run(j, events))
    decreases events
  {
    if events != [] {
      StepKeeps(j, events[0]);
      RunKeeps(Step(j, events[0]), events[1..]);
    }
  }

  /**
   Over every run, with any mixture of disconnects, failures, timeouts and cancellations:
   each frame's offset or counts are the totals of the record before it, no job relays more
   than the limit, nothing follows a job's EXIT, and no job has two.
   */
  lemma ExecAccounting(events: seq<Event>, k: nat)
    requires k < |Run(IDLE, events).queued|
    ensures Accounted(Run(IDLE, events).queued, k)
    ensures Run(IDLE, events).queued[k].job <= Run(IDLE, events).job
  {
    RunKeeps(IDLE, events);
    WellKeptAccounts(Run(IDLE, events).queued, k);
  }

  /**
   Over every run and for every job: up to the limit, the frames carry exactly the bytes that the
   job's streams returned while there was a peer, in their order; beyond it they carry the first
   bytes of both streams, and all that the limit allows.
   */
  lemma ExecOutputIsConserved(events: seq<Event>, job: nat)
    ensures Delivered(Run(IDLE, events).queued, Run(IDLE, events).heard, job)
  {
    assert forall n: nat :: Delivered([], [], n);
    RunKeeps(IDLE, events);
  }

  ghost predicate Accounted(log: seq<Queued>, k: nat)
    requires k < |log|
  {
    var x := log[k];
    && (x.OutputFrame? ==> x.offset == Total(log[..k], x.job, x.stream))
    && (x.ExitFrame? ==> x.stdout == Total(log[..k], x.job, 0) && x.stderr == Total(log[..k], x.job, 1))
    && Total(log[..k + 1], x.job, 0) + Total(log[..k + 1], x.job, 1) <= OUTPUT_MAX
    && (forall i | 0 <= i < k && log[i].job == x.job :: log[i].OutputFrame?)
  }

  lemma WellKeptAccounts(log: seq<Queued>, k: nat)
    requires WellKept(log) && k < |log|
    ensures Accounted(log, k)
  {
    hide Relayed, WellKept;
    var x, before := log[k], log[..k];
    WellKeptPrefix(log, k);
    forall i | 0 <= i < k && log[i].job == x.job
      ensures log[i].OutputFrame?
    {
      assert before[i] == log[i];
    }
    assert log[..k + 1] == before + [x];
    TotalGrows(before, x, x.job, 0);
    TotalGrows(before, x, x.job, 1);
    if x.ExitFrame? {
      TotalsBounded(before, x.job);
    }
  }

  lemma {:induction false} WellKeptPrefix(log: seq<Queued>, n: nat)
    requires WellKept(log) && n <= |log|
    ensures WellKept(log[..n])
    ensures n < |log| ==> Continues(log[..n], log[n])
  {
    if n < |log| {
      assert log[..|log| - 1][..n] == log[..n];
      WellKeptPrefix(log[..|log| - 1], n);
    } else {
      assert log[..n] == log;
    }
  }

  lemma {:induction false} TotalsBounded(log: seq<Queued>, job: nat)
    requires WellKept(log)
    ensures Total(log, job, 0) + Total(log, job, 1) <= OUTPUT_MAX
  {
    if log != [] {
      var n := |log| - 1;
      TotalsBounded(log[..n], job);
      assert Continues(log[..n], log[n]);
    }
  }

  /** A turn in which the environment does nothing wrong. */
  predicate Benign(t: Turn) {
    && t.start == Started && t.killed && t.removed && t.errorsOk && !t.expired && t.isolation != Broken
    && (t.written > 0 || t.written == -EAGAIN || t.written == -EINTR)
    && (t.reply0.Errno? ==> t.reply0.code == EAGAIN || t.reply0.code == EINTR)
    && (t.reply1.Errno? ==> t.reply1.code == EAGAIN || t.reply1.code == EINTR)
  }

  /**
   A frame always finds the wire slot empty and a cancelled job always may report: in no
   reachable state does a turn fail for any reason of its own.
   */
  lemma OnlyTheEnvironmentFails(events: seq<Event>, t: Turn)
    requires Benign(t)
    ensures Pumped(Run(IDLE, events), t).1
  {
    RunKeeps(IDLE, events);
    var j := Run(IDLE, events);
    hide Run, WellKept, Unheard, AllDelivered, Counting, Work;
    LaunchKeeps(j, t);
    var a := Launch(j, t).0;
    if a.active && !(a.phase == 3 && !t.connected) {
      PlumbingKeeps(a, t);
      var d := Drain(Unplug(Owe(a, t).0, t).0, t.written).0;
      if d.phase != 4 {
        WorkSucceeds(d, t);
      }
    }
  }

  lemma RelaySucceeds(j: Job, stream: nat, reply: Reply, t: Turn)
    requires Working(j) && stream <= 1 && t.killed
    requires reply.Errno? ==> reply.code == EAGAIN || reply.code == EINTR
    ensures Relay(j, stream, reply, t).1
  {
  }

  lemma ConcludeSucceeds(j: Job, t: Turn)
    requires Working(j) && t.removed && !t.expired
    ensures var (k, ok) := Conclude(j, t); ok && !(k.killed && k.phase != 4 && t.expired)
  {
    if j.wireUsed == 0 {
      ExitKeeps(j, t.frame);
    }
  }

  lemma RelaysSucceed(j: Job, t: Turn)
    requires Working(j) && Benign(t)
    ensures var (c, first) := Relay(j, 0, t.reply0, t);
            first && Working(c) && Relay(c, 1, t.reply1, t).1 && Working(Relay(c, 1, t.reply1, t).0)
  {
    RelaySucceeds(j, 0, t.reply0, t);
    RelayKeeps(j, 0, t.reply0, t);
    var c := Relay(j, 0, t.reply0, t).0;
    RelaySucceeds(c, 1, t.reply1, t);
    RelayKeeps(c, 1, t.reply1, t);
  }

  lemma ExpireSucceeds(j: Job, t: Turn)
    requires Working(j) && Benign(t)
    ensures Expire(j, t).1 && Working(Expire(j, t).0)
  {
    ExpireKeeps(j, t);
  }

  lemma IsolateSucceeds(j: Job, t: Turn)
    requires Working(j) && Benign(t)
    ensures Isolate(j, t.isolation).1 && Working(Isolate(j, t.isolation).0)
  {
  }

  lemma WorkSucceeds(j: Job, t: Turn)
    requires Working(j) && Benign(t)
    ensures Work(j, t).1
  {
    hide Expire, Isolate, Relay, Conclude, Working;
    var a := Expire(j, t).0;
    ExpireSucceeds(j, t);
    var b := Isolate(a, t.isolation).0;
    IsolateSucceeds(a, t);
    var c := Relay(b, 0, t.reply0, t).0;
    RelaysSucceed(b, t);
    ConcludeSucceeds(Relay(c, 1, t.reply1, t).0, t);
  }

  // ----- The program

  class RemoteExecJob {
    var pending: bool
    var active: bool
    var phase: nat
    var reaped: bool
    var killed: bool
    var reason: nat
    var bytes0: nat
    var bytes1: nat
    var open0: bool
    var open1: bool
    var wireUsed: nat
    var wireSent: nat
    /** The number of admitted requests, and every frame that was queued. */
    var job: nat
    var queued: seq<Queued>
    /** Every answer of a read of the job's streams. */
    var heard: seq<Read>

    ghost function View(): Job
      reads this
    {
      Job(pending, active, phase, reaped, killed, reason, bytes0, bytes1, open0, open1, wireUsed, wireSent, job, queued,
          heard)
    }

    constructor ()
      ensures View() == IDLE
    {
      pending, active, phase, reaped, killed, reason := false, false, 0, false, false, 0;
      bytes0, bytes1, open0, open1, wireUsed, wireSent := 0, 0, false, false, 0, 0;
      job, queued, heard := 0, [], [];
    }

    method Admit()
      modifies this
      ensures View() == Admitted(old(View()))
    {
      if !pending && !active {
        pending, job := true, job + 1;
      }
    }

    method Reap()
      modifies this
      ensures View() == Reaped(old(View()))
    {
      if active {
        reaped := true;
      }
    }

    method SkipStart(why: nat)
      modifies this
      ensures View() == NeverStarted(old(View()), why)
    {
      pending, active, phase, reason := false, true, 3, why;
      bytes0, bytes1, wireUsed, wireSent := 0, 0, 0, 0;
    }

    /** `dies` says whether the kernel kills the job's session. */
    method Cancel(why: nat, dies: bool) returns (ok: bool)
      modifies this
      ensures (View(), ok) == Cancelled(old(View()), why, dies)
    {
      if pending && !active {
        SkipStart(if why != 0 then why else 3);
        return true;
      }
      if phase == 3 || !active || phase == 4 {
        return true;
      }
      if why != 0 && reason == 0 {
        reason := why;
      }
      if !killed {
        killed := dies;
        return dies;
      }
      return true;
    }

    method ClearStreams()
      modifies this`bytes0, this`bytes1, this`open0, this`open1
      ensures bytes0 == 0 && bytes1 == 0 && !open0 && !open1
    {
      bytes0, bytes1, open0, open1 := 0, 0, false, false;
    }

    method Clear()
      modifies this
      ensures View() == Cleared(old(View()))
    {
      pending, active, phase, reaped, reason, killed := false, true, 1, false, 0, false;
      ClearStreams();
    }

    method Start(start: StartOutcome) returns (ok: bool)
      modifies this
      ensures (View(), ok) == Begun(old(View()), start)
    {
      Clear();
      if start == NoSession {
        return false;
      }
      if start == NoPipes {
        active := false;
        return false;
      }
      open0, open1 := true, true;
      return start == Started;
    }

    method QueueFrame(frame: Queued, size: nat) returns (ok: bool)
      modifies this`wireUsed, this`wireSent, this`queued
      ensures (View(), ok) == Put(old(View()), frame, size)
    {
      if wireUsed > 0 {
        return false;
      }
      wireUsed, wireSent, queued := size + 1, 0, queued + [frame];
      return true;
    }

    method QueueOutput(stream: nat, data: seq<byte>, frame: nat) returns (ok: bool)
      modifies this
      ensures (View(), ok) == PutOutput(old(View()), stream, data, frame)
    {
      ok := QueueFrame(OutputFrame(job, stream, if stream == 0 then bytes0 else bytes1, data), frame);
      if ok {
        if stream == 0 {
          bytes0 := bytes0 + |data|;
        } else {
          bytes1 := bytes1 + |data|;
        }
      }
    }

    method QueueExit(frame: nat) returns (ok: bool)
      modifies this`wireUsed, this`wireSent, this`queued
      ensures (View(), ok) == PutExit(old(View()), frame)
    {
      if phase == 3 && !(reason == 3 && bytes0 == 0 && bytes1 == 0) {
        return false;
      }
      ok := QueueFrame(ExitFrame(job, reason, bytes0, bytes1), frame);
    }

    method WriteWire(written: int) returns (ok: bool)
      modifies this
      ensures (View(), ok) == Drain(old(View()), written)
    {
      if wireUsed == 0 {
        return true;
      }
      if written > 0 {
        wireSent := Min(wireSent + written, wireUsed);
      } else if written != -EAGAIN && written != -EINTR {
        return false;
      }
      if written > 0 && wireSent == wireUsed {
        wireUsed, wireSent := 0, 0;
      }
      return true;
    }

    method RelayStream(stream: nat, reply: Reply, t: Turn) returns (ok: bool)
      modifies this
      ensures (View(), ok) == Relay(old(View()), stream, reply, t)
    {
      if wireUsed > 0 {
        return true;
      }
      var total := bytes0 + bytes1;
      var capacity := if total < OUTPUT_MAX then OUTPUT_MAX - total else 1;
      if capacity > CHUNK {
        capacity := CHUNK;
      }
      if !(if stream == 0 then open0 else open1) {
        return true;
      }
      if reply.Errno? {
        return reply.code == EAGAIN || reply.code == EINTR;
      }
      var data := reply.bytes[..Min(|reply.bytes|, capacity)];
      heard := heard + [Read(job, stream, data, t.connected)];
      ok := HandleData(stream, data, t);
    }

    method HandleData(stream: nat, data: seq<byte>, t: Turn) returns (ok: bool)
      modifies this
      ensures (View(), ok) == Handle(old(View()), stream, data, t)
    {
      if data == [] {
        if stream == 0 {
          open0 := false;
        } else {
          open1 := false;
        }
        return true;
      }
      if bytes0 + bytes1 == OUTPUT_MAX {
        ok := Cancel(2, t.killed);
        if ok {
          open0, open1 := false, false;
        }
        return;
      }
      if t.connected {
        ok := QueueOutput(stream, data, t.frame);
        return;
      }
      return true;
    }

    method Finish(t: Turn) returns (ok: bool)
      modifies this
      ensures (View(), ok) == Conclude(old(View()), t)
    {
      if !(reaped && !open0 && !open1 && wireUsed == 0 && t.empty) {
        return true;
      }
      if !t.removed {
        return false;
      }
      if t.connected {
        ok := QueueExit(t.frame);
        if !ok {
          return;
        }
      }
      phase := 4;
      return true;
    }

    /** The deadline and the reaped child both end the job's processes. */
    method CheckDeadline(t: Turn) returns (ok: bool)
      modifies this
      ensures (View(), ok) == Expire(old(View()), t)
    {
      if t.late {
        ok := Cancel(1, t.killed);
        if !ok {
          return;
        }
      }
      if reaped {
        ok := Cancel(0, t.killed);
        return;
      }
      return true;
    }

    method CheckIsolation(outcome: Isolation) returns (ok: bool)
      modifies this
      ensures (View(), ok) == Isolate(old(View()), outcome)
    {
      if phase == 1 && !killed {
        if outcome == Broken {
          return false;
        }
        if outcome != Stalled {
          phase := 2;
        }
      }
      return true;
    }

    /** The turn of a job that is running. */
    method RunTurn(t: Turn) returns (ok: bool)
      modifies this
      ensures (View(), ok) == Work(old(View()), t)
    {
      ok := CheckDeadline(t);
      if !ok {
        return;
      }
      ok := CheckIsolation(t.isolation);
      if !ok || !t.errorsOk {
        return false;
      }
      ok := RelayStream(0, t.reply0, t);
      if !ok {
        return;
      }
      ok := RelayStream(1, t.reply1, t);
      if !ok {
        return;
      }
      ok := Finish(t);
      if killed && phase != 4 && t.expired {
        return false;
      }
    }

    method StartPending(t: Turn) returns (ok: bool)
      modifies this
      ensures (View(), ok) == Launch(old(View()), t)
    {
      if pending {
        if !t.ready {
          ok := Cancel(3, t.killed);
        } else {
          ok := Start(t.start);
        }
        return;
      }
      return true;
    }

    method ReportCancelled(t: Turn) returns (ok: bool)
      modifies this
      ensures (View(), ok) == Owe(old(View()), t)
    {
      if phase == 3 {
        ok := QueueExit(t.frame);
        if ok {
          phase := 4;
        }
        return;
      }
      return true;
    }

    method DropWire(t: Turn) returns (ok: bool)
      modifies this
      ensures (View(), ok) == Unplug(old(View()), t)
    {
      if !t.connected {
        wireUsed, wireSent := 0, 0;
        ok := Cancel(3, t.killed);
        return;
      }
      return true;
    }

    method PumpRemoteExec(t: Turn) returns (ok: bool)
      modifies this
      ensures (View(), ok) == Pumped(old(View()), t)
    {
      ok := StartPending(t);
      if !ok {
        return;
      }
      if !active || (phase == 3 && !t.connected) {
        return true;
      }
      ok := ReportCancelled(t);
      if !ok {
        return;
      }
      ok := DropWire(t);
      if !ok {
        return;
      }
      ok := WriteWire(t.written);
      if !ok {
        return;
      }
      if phase == 4 {
        if wireUsed == 0 {
          active := false;
        }
        return true;
      }
      ok := RunTurn(t);
    }
  }
}
