/**
 The exec job and the session of guest/stage1/init.c together: the session admits an EXEC only
 while there is no job, and every frame of the job goes out under the session's next number.
 */
module ExecSessions {
  import opened Bytes
  import opened FrameReaders
  import opened Lifecycles
  import opened LifecycleMoves
  import P = LifecycleProofs
  import R = RemoteExecs

  datatype Guest = Guest(w: World, j: R.Job)

  /** The session takes a step of its own, or the supervisor turns to the job. */
  datatype GuestEvent = SessionStep(own: Event) | JobStep(turn: R.Event)

  predicate Busy(j: R.Job) {
    j.pending || j.active
  }

  /** This step has admitted an EXEC. */
  predicate Takes(w: World, v: World) {
    |v.accepted| > |w.accepted| && v.accepted[|v.accepted| - 1].kind == EXEC
  }

  /** A turn of the job sees the state and the connection of the session, and the deadline of its request. */
  function SeenTurn(w: World, t: R.Turn): R.Turn {
    t.(ready := w.s.life.state == Ready, connected := w.s.reader.connected, late := t.clock >= w.execDeadline)
  }

  function Seen(w: World, e: R.Event): R.Event {
    match e
    case Pump(t) => R.Pump(SeenTurn(w, t))
    case _ => e
  }

  /** The job goes on to `k`; its new frames take their numbers, and the session knows whether it is gone. */
  function JobTurn(g: Guest, k: R.Job): Guest {
    Guest(Logged(g.w, if |k.queued| > |g.j.queued| then |k.queued| - |g.j.queued| else 0).(execBusy := Busy(k)), k)
  }

  /** The supervisor goes on with the job during a teardown, even after the session has failed. */
  function GuestStep(g: Guest, e: GuestEvent): Guest {
    match e
    case SessionStep(x) =>
      if x.ExecSends? || x.ExecEnds? then g
      else
        var v := Step(g.w, x);
        Guest(v, if Takes(g.w, v) then R.Admitted(g.j) else g.j)
    case JobStep(x) => if x.Accept? then g else JobTurn(g, R.Step(g.j, Seen(g.w, x)))
  }

  function GuestRun(g: Guest, events: seq<GuestEvent>): Guest
    decreases events
  {
    if events == [] then g else GuestRun(GuestStep(g, events[0]), events[1..])
  }

  // ----- What a turn of the job adds to the record

  /** The record grows by frames of the current job only. */
  ghost predicate Extends(j: R.Job, k: R.Job) {
    k.job == j.job && Grows(j.job, j.queued, k.queued)
  }

  ghost predicate Grows(job: nat, log: seq<R.Queued>, more: seq<R.Queued>) {
    log <= more && forall i | |log| <= i < |more| :: more[i].job == job
  }

  lemma ExtendsOn(a: R.Job, b: R.Job, c: R.Job)
    requires Extends(a, b) && Extends(b, c)
    ensures Extends(a, c)
  {
    assert forall i | 0 <= i < |b.queued| :: c.queued[i] == b.queued[i];
  }

  lemma CancelExtends(j: R.Job, reason: nat, killed: bool)
    ensures Extends(j, R.Cancelled(j, reason, killed).0)
  {
  }

  lemma PutExtends(j: R.Job, frame: R.Queued, size: nat)
    requires frame.job == j.job
    ensures Extends(j, R.Put(j, frame, size).0)
  {
  }

  lemma RelayExtends(j: R.Job, stream: nat, reply: R.Reply, t: R.Turn)
    ensures Extends(j, R.Relay(j, stream, reply, t).0)
  {
    CancelExtends(j, 2, t.killed);
    if reply.Data? {
      var data := reply.bytes[..Min(|reply.bytes|, R.Quota(j))];
      var h := R.Hear(j, stream, data, t.connected);
      CancelExtends(h, 2, t.killed);
      PutExtends(h, R.OutputFrame(j.job, stream, R.Sent(j, stream), data), t.frame);
    }
  }

  lemma ExitExtends(j: R.Job, frame: nat)
    ensures Extends(j, R.PutExit(j, frame).0)
  {
    PutExtends(j, R.ExitFrame(j.job, j.reason, j.bytes0, j.bytes1), frame);
  }

  lemma ExpireExtends(j: R.Job, t: R.Turn)
    ensures Extends(j, R.Expire(j, t).0)
  {
    var k := if t.late then R.Cancelled(j, 1, t.killed).0 else j;
    CancelExtends(j, 1, t.killed);
    CancelExtends(k, 0, t.killed);
    ExtendsOn(j, k, R.Cancelled(k, 0, t.killed).0);
  }

  lemma WorkExtends(j: R.Job, t: R.Turn)
    ensures Extends(j, R.Work(j, t).0)
  {
    ExpireExtends(j, t);
    var b := R.Isolate(R.Expire(j, t).0, t.isolation).0;
    assert Extends(j, b);
    RelayExtends(b, 0, t.reply0, t);
    var c := R.Relay(b, 0, t.reply0, t).0;
    ExtendsOn(j, b, c);
    RelayExtends(c, 1, t.reply1, t);
    var d := R.Relay(c, 1, t.reply1, t).0;
    ExtendsOn(j, c, d);
    ExitExtends(d, t.frame);
    ExtendsOn(j, d, R.Conclude(d, t).0);
  }

  lemma LaunchExtends(j: R.Job, t: R.Turn)
    ensures Extends(j, R.Launch(j, t).0)
  {
    CancelExtends(j, 3, t.killed);
  }

  lemma OweExtends(j: R.Job, t: R.Turn)
    ensures Extends(j, R.Owe(j, t).0)
  {
    var k := R.PutExit(j, t.frame).0;
    ExitExtends(j, t.frame);
    assert R.Owe(j, t).0.queued == (if j.phase == 3 then k.queued else j.queued) && R.Owe(j, t).0.job == j.job;
  }

  lemma UnplugExtends(j: R.Job, t: R.Turn)
    ensures Extends(j, R.Unplug(j, t).0)
  {
    CancelExtends(j.(wireUsed := 0, wireSent := 0), 3, t.killed);
  }

  /** Everything in a turn but the work itself. */
  lemma PlumbingExtends(j: R.Job, t: R.Turn)
    ensures var a := R.Launch(j, t).0;
            var b := R.Owe(a, t).0;
            var c := R.Unplug(b, t).0;
            Extends(j, a) && Extends(j, b) && Extends(j, c) && Extends(j, R.Drain(c, t.written).0)
  {
    var a := R.Launch(j, t).0;
    LaunchExtends(j, t);
    var b := R.Owe(a, t).0;
    OweExtends(a, t);
    ExtendsOn(j, a, b);
    var c := R.Unplug(b, t).0;
    UnplugExtends(b, t);
    ExtendsOn(j, b, c);
    DrainExtends(c, t.written);
    ExtendsOn(j, c, R.Drain(c, t.written).0);
  }

  lemma DrainExtends(j: R.Job, written: int)
    ensures Extends(j, R.Drain(j, written).0)
  {
  }

  /** A turn ends at one of its stages. */
  lemma PumpStages(j: R.Job, t: R.Turn, a: R.Job, b: R.Job, c: R.Job, d: R.Job)
    requires a == R.Launch(j, t).0 && b == R.Owe(a, t).0 && c == R.Unplug(b, t).0 && d == R.Drain(c, t.written).0
    ensures R.Pumped(j, t).0 in {a, b, c, d, d.(active := false), R.Work(d, t).0}
  {
  }

  lemma PumpExtends(j: R.Job, t: R.Turn)
    ensures Extends(j, R.Pumped(j, t).0)
  {
    var a := R.Launch(j, t).0;
    var b := R.Owe(a, t).0;
    var c := R.Unplug(b, t).0;
    var d := R.Drain(c, t.written).0;
    PumpStages(j, t, a, b, c, d);
    PlumbingExtends(j, t);
    WorkExtends(d, t);
    ExtendsOn(j, d, R.Work(d, t).0);
    assert Extends(j, d.(active := false));
  }

  lemma IdlePump(j: R.Job, t: R.Turn)
    requires !Busy(j)
    ensures R.Pumped(j, t).0 == j
  {
  }

  lemma StepExtends(j: R.Job, e: R.Event)
    ensures j.queued <= R.Step(j, e).queued
    ensures !e.Accept? ==> Extends(j, R.Step(j, e))
    ensures !e.Accept? && !Busy(j) ==> R.Step(j, e) == j
  {
    match e
    case Accept =>
    case Reap =>
    case Cancel(killed) => CancelExtends(j, 3, killed);
    case Pump(t) =>
      PumpExtends(j, t);
      if !Busy(j) {
        IdlePump(j, t);
      }
  }

  // ----- What a step of the session adds

  /** The ids of the admitted EXEC requests, in order. */
  function Execs(a: seq<Accepted>): seq<nat> {
    if a == [] then []
    else Execs(a[..|a| - 1]) + if a[|a| - 1].kind == EXEC then [a[|a| - 1].id] else []
  }

  /** The numbers that the job's frames went out under, in order. */
  function Numbers(sent: seq<Attempted>): seq<nat> {
    if sent == [] then []
    else Numbers(sent[..|sent| - 1]) + if sent[|sent| - 1].body.ExecFrame? then [sent[|sent| - 1].sequence] else []
  }

  ghost predicate OneEntry(w: World, v: World) {
    || (v.accepted == w.accepted && v.execBusy == w.execBusy)
    || (&& |v.accepted| == |w.accepted| + 1 && v.accepted[..|w.accepted|] == w.accepted
        && if v.accepted[|w.accepted|].kind == EXEC then !w.execBusy && v.execBusy else v.execBusy == w.execBusy)
  }

  /** At most one frame, and not one of the job's. */
  ghost predicate OwnFrame(w: World, v: World) {
    || v.sent == w.sent
    || (|v.sent| == |w.sent| + 1 && v.sent[..|w.sent|] == w.sent && !v.sent[|w.sent|].body.ExecFrame?)
  }

  lemma LostIsOwn(w: World, r: Reader, draws: seq<string>, taken: bool)
    ensures var v := ConnectionLost(w, r, draws, taken);
            OwnFrame(w, v) && v.accepted == w.accepted && v.execBusy == w.execBusy
  {
  }

  lemma SnapshotIsOwn(w: World, carried: bool)
    ensures var v := CurrentSnapshot(w, carried); OwnFrame(w, v) && v.accepted == w.accepted && v.execBusy == w.execBusy
  {
  }

  lemma OpeningIsOwn(w: World, m: Message)
    ensures var v := ParseOpening(w, m);
            v.Some? ==> v.value.sent == w.sent && OneEntry(w, v.value) && v.value.execBusy == w.execBusy
  {
  }

  lemma RequestIsOwn(w: World, m: Message, now: nat)
    ensures var v := ParseRequest(w, m, now); v.Some? ==> v.value.sent == w.sent && OneEntry(w, v.value)
  {
  }

  lemma AdmitIsOwn(w: World, i: Input)
    ensures Lifecycles.Admit(w, i).sent == w.sent || OwnFrame(w, Lifecycles.Admit(w, i))
    ensures OneEntry(w, Lifecycles.Admit(w, i))
  {
    OpeningIsOwn(w, i.message);
    RequestIsOwn(w, i.message, i.now);
    if ParseOpening(w, i.message).Some? {
      SnapshotIsOwn(ParseOpening(w, i.message).value, i.carried);
    }
  }

  lemma PumpIsOwn(w: World, i: Input)
    ensures OwnFrame(w, Pump(w, i)) && OneEntry(w, Pump(w, i))
  {
    var t := w.(s := w.s.(reader := Called(w.s.reader, i.polls).0));
    LostIsOwn(t, BeforeClose(w.s.reader, i.polls), i.draws, i.taken);
    AdmitIsOwn(t, i);
  }

  lemma StepIsOwn(w: World, e: Event)
    requires !e.ExecSends? && !e.ExecEnds?
    ensures OwnFrame(w, Step(w, e)) && OneEntry(w, Step(w, e))
  {
    match e
    case PumpTurn(i) => PumpIsOwn(w, i);
    case _ =>
  }

  // ----- The two together

  /** The session's flag is the job's, jobs are counted by EXEC requests and frames by numbers. */
  ghost predicate Linked(g: Guest) {
    && g.w.execBusy == Busy(g.j)
    && g.j.job == |Execs(g.w.accepted)| && |Numbers(g.w.sent)| == |g.j.queued|
    && (Busy(g.j) ==> g.j.job > 0)
    && (forall i | 0 <= i < |g.j.queued| :: g.j.queued[i].job > 0)
  }

  lemma SessionLinks(g: Guest, e: Event)
    requires Linked(g) && !e.ExecSends? && !e.ExecEnds?
    ensures Linked(GuestStep(g, SessionStep(e)))
  {
    StepIsOwn(g.w, e);
  }

  lemma {:induction false} LoggedLinks(w: World, n: nat)
    ensures var v := Logged(w, n); v.accepted == w.accepted && |Numbers(v.sent)| == |Numbers(w.sent)| + n
    decreases n
  {
    if n > 0 {
      var v := Log(w, ExecFrame);
      assert v.sent[..|w.sent|] == w.sent;
      LoggedLinks(v, n - 1);
    }
  }

  lemma FramesBelong(j: R.Job, k: R.Job)
    requires Extends(j, k) && (k.queued == j.queued || j.job > 0) &&
             forall i | 0 <= i < |j.queued| :: j.queued[i].job > 0
    ensures forall i | 0 <= i < |k.queued| :: k.queued[i].job > 0
  {
    assert forall i | 0 <= i < |j.queued| :: k.queued[i] == j.queued[i];
  }

  lemma JobTurnLinks(g: Guest, k: R.Job)
    requires Linked(g) && Extends(g.j, k) && (!Busy(g.j) ==> k == g.j)
    ensures Linked(JobTurn(g, k))
  {
    LoggedLinks(g.w, |k.queued| - |g.j.queued|);
    FramesBelong(g.j, k);
  }

  lemma JobLinks(g: Guest, e: R.Event)
    requires Linked(g) && !e.Accept?
    ensures Linked(GuestStep(g, JobStep(e)))
  {
    StepExtends(g.j, Seen(g.w, e));
    JobTurnLinks(g, R.Step(g.j, Seen(g.w, e)));
  }

  /** The part of the session's invariant that numbers and request ids need. */
  ghost predicate Sane(w: World) {
    Attached(w) && P.Ordered(w) && P.Numbered(w) && P.UsedOnce(w.accepted, w.s.ledger, w.s.life.stopId)
  }

  lemma SessionKeeps(w: World, e: Event)
    requires Sane(w)
    ensures Sane(Step(w, e))
  {
    if Enabled(w, e) {
      StepMoves(w, e);
      P.NumberedKept(w, Step(w, e));
      P.OrderedKept(w, Step(w, e));
      P.UsedOnceKept(w, Step(w, e));
    }
  }

  lemma LogMoves(w: World)
    requires Attached(w)
    ensures Moves(w, Log(w, ExecFrame))
  {
  }

  /** A number for a frame of the job keeps this, whether or not the session has failed. */
  lemma LogKeeps(w: World)
    requires Sane(w)
    ensures Sane(Log(w, ExecFrame))
  {
    LogMoves(w);
    P.NumberedKept(w, Log(w, ExecFrame));
  }

  lemma {:induction false} LoggedKeeps(w: World, n: nat)
    requires Sane(w)
    ensures Sane(Logged(w, n))
    decreases n
  {
    if n > 0 {
      LogKeeps(w);
      LoggedKeeps(Log(w, ExecFrame), n - 1);
    }
  }

  lemma BusyIsFree(w: World, v: World)
    requires Sane(w) && v == w.(execBusy := v.execBusy)
    ensures Sane(v)
  {
  }

  lemma JobTurnKeeps(g: Guest, k: R.Job)
    requires Sane(g.w)
    ensures Sane(JobTurn(g, k).w)
  {
    var n: nat := if |k.queued| > |g.j.queued| then |k.queued| - |g.j.queued| else 0;
    var v := Logged(g.w, n);
    LoggedKeeps(g.w, n);
    BusyIsFree(v, JobTurn(g, k).w);
  }

  lemma WorldKeeps(g: Guest, e: GuestEvent)
    requires Sane(g.w)
    ensures Sane(GuestStep(g, e).w)
  {
    match e
    case SessionStep(x) => SessionKeeps(g.w, x);
    case JobStep(x) => JobTurnKeeps(g, R.Step(g.j, Seen(g.w, x)));
  }

  lemma JobKeeps(g: Guest, e: GuestEvent)
    requires R.Invariant(g.j)
    ensures R.Invariant(GuestStep(g, e).j)
  {
    match e
    case SessionStep(_) => R.StepKeeps(g.j, R.Accept);
    case JobStep(x) => R.StepKeeps(g.j, Seen(g.w, x));
  }

  lemma {:induction false} GuestRunKeeps(g: Guest, events: seq<GuestEvent>)
    requires Sane(g.w) && R.Invariant(g.j)
    ensures Sane(GuestRun(g, events).w) && R.Invariant(GuestRun(g, events).j)
    decreases events
  {
    if events != [] {
      WorldKeeps(g, events[0]);
      JobKeeps(g, events[0]);
      GuestRunKeeps(GuestStep(g, events[0]), events[1..]);
    }
  }

  lemma StepLinks(g: Guest, e: GuestEvent)
    requires Linked(g)
    ensures Linked(GuestStep(g, e))
  {
    match e
    case SessionStep(x) =>
      if !x.ExecSends? && !x.ExecEnds? {
        SessionLinks(g, x);
      }
    case JobStep(x) =>
      if !x.Accept? {
        JobLinks(g, x);
      }
  }

  lemma {:induction false} GuestRunLinks(g: Guest, events: seq<GuestEvent>)
    requires Linked(g)
    ensures Linked(GuestRun(g, events))
    decreases events
  {
    if events != [] {
      StepLinks(g, events[0]);
      GuestRunLinks(GuestStep(g, events[0]), events[1..]);
    }
  }

  function Booted(binding: Binding): Guest {
    Guest(Start(binding), R.IDLE)
  }

  /** Strictly increasing, and never above `last`. */
  ghost predicate Rising(s: seq<nat>, last: int) {
    (forall i, j | 0 <= i < j < |s| :: s[i] < s[j]) && forall i | 0 <= i < |s| :: s[i] <= last
  }

  lemma RisingOn(s: seq<nat>, x: nat, last: int)
    requires Rising(s, x - 1) && x <= last
    ensures Rising(s + [x], last)
  {
  }

  lemma {:induction false} ExecsIncrease(a: seq<Accepted>, last: int)
    requires forall i, j | 0 <= i < j < |a| && a[i].kind == EXEC && a[j].kind == EXEC :: a[i].id < a[j].id
    requires forall i | 0 <= i < |a| && a[i].kind == EXEC :: a[i].id <= last
    ensures Rising(Execs(a), last)
    decreases |a|
  {
    if a != [] {
      var x, before := a[|a| - 1], a[..|a| - 1];
      assert forall i | 0 <= i < |before| :: before[i] == a[i];
      if x.kind == EXEC {
        ExecsIncrease(before, x.id - 1);
        RisingOn(Execs(before), x.id, last);
      } else {
        ExecsIncrease(before, last);
        assert Execs(a) == Execs(before) + [] == Execs(before);
      }
    }
  }

  lemma {:induction false} NumbersIncrease(sent: seq<Attempted>)
    requires forall i | 0 <= i < |sent| :: sent[i].sequence == i + 1
    ensures Rising(Numbers(sent), |sent|)
    decreases |sent|
  {
    if sent != [] {
      var x, before := sent[|sent| - 1], sent[..|sent| - 1];
      NumbersIncrease(before);
      if x.body.ExecFrame? {
        RisingOn(Numbers(before), x.sequence, |sent|);
      } else {
        assert Numbers(sent) == Numbers(before) + [] == Numbers(before);
      }
    }
  }

  /** The request that a frame of the record answers. */
  function Answers(g: Guest, k: nat): nat
    requires k < |g.j.queued| && 0 < g.j.queued[k].job <= |Execs(g.w.accepted)|
  {
    Execs(g.w.accepted)[g.j.queued[k].job - 1]
  }

  lemma IdsIncrease(w: World)
    requires Sane(w)
    ensures forall i, j | 0 <= i < j < |Execs(w.accepted)| :: Execs(w.accepted)[i] < Execs(w.accepted)[j]
    ensures forall i, j | 0 <= i < j < |Numbers(w.sent)| :: Numbers(w.sent)[i] < Numbers(w.sent)[j]
  {
    ExecsIncrease(w.accepted, w.s.ledger.lastExecId);
    NumbersIncrease(w.sent);
  }

  lemma JobsInRange(j: R.Job, k: nat)
    requires R.Invariant(j) && k < |j.queued|
    ensures R.Accounted(j.queued, k) && j.queued[k].job <= j.job
  {
    R.WellKeptAccounts(j.queued, k);
  }

  lemma JobsAreAccounted(g: Guest)
    requires Linked(g) && R.Invariant(g.j)
    ensures forall k | 0 <= k < |g.j.queued| ::
              R.Accounted(g.j.queued, k) && 0 < g.j.queued[k].job <= |Execs(g.w.accepted)|
  {
    forall k | 0 <= k < |g.j.queued|
      ensures R.Accounted(g.j.queued, k) && g.j.queued[k].job <= g.j.job
    {
      JobsInRange(g.j, k);
    }
  }

  /**
   Over every joint run: every frame of the job answers one admitted EXEC, under a number of its
   own that grows along the record; and nothing that answers an EXEC follows the EXIT that
   answers it, so that no EXEC id ever gets two.
   */
  lemma OneExitForEachExec(binding: Binding, events: seq<GuestEvent>, k: nat)
    requires k < |GuestRun(Booted(binding), events).j.queued|
    ensures var g := GuestRun(Booted(binding), events);
            var log, ids, numbers := g.j.queued, Execs(g.w.accepted), Numbers(g.w.sent);
            && |numbers| == |log| && (forall i | 0 <= i < k :: numbers[i] < numbers[k])
            && R.Accounted(log, k) && (forall i | 0 <= i <= k :: 0 < log[i].job <= |ids|)
            && (forall i | 0 <= i < k && Answers(g, i) == Answers(g, k) :: log[i].OutputFrame?)
  {
    GuestRunKeeps(Booted(binding), events);
    GuestRunLinks(Booted(binding), events);
    IdsIncrease(GuestRun(Booted(binding), events).w);
    JobsAreAccounted(GuestRun(Booted(binding), events));
  }
}
