/**
 The bounded teardown of guest/stage1/init.c and the gate in front of the terminal state.

 The supervisor reaps, services the output, pumps the exec job and polls until a deadline,
 kills the rest, does it once more, and only then decides.  Every system call is an answer
 in a script that the environment writes.
 */
module Teardowns {
  import opened Bytes
  import opened ConsoleQueues
  import opened OutputPumps
  import opened MainOutputs
  import F = FrameReaders
  import L = Lifecycles
  import RemoteExecs
  import S = LifecycleSessions
  import X = ExecSessions

  /** What wait4 answers. */
  datatype Wait = Nothing | Child(isExec: bool) | Interrupted | NoChildren | Broken

  /**
   One turn of a teardown loop.  `now` is the clock in front of it and `current` the clock in
   front of its poll, zero if the clock failed.  `inputs` is what the host sends if the session is
   due to be pumped, and `notes` the lines that the pump puts on the console.
   */
  datatype Tick = Tick(now: nat, current: nat, wait: Wait, sinkOpen: bool, count: int, reply0: Reply, reply1: Reply,
                       exec: RemoteExecs.Turn, polled: bool,
                       inputs: Option<seq<L.Input>>, notes: seq<seq<byte>>)

  /** The output, the exec job, whether wait4 has said that no child is left, and the session. */
  datatype Machine = Machine(output: State, job: RemoteExecs.Job, childrenDone: bool, session: L.World)

  /** The script of one teardown; `killed`, `closed` and `removed` are its last system calls. */
  datatype Script = Script(clock: nat, cancels: bool, deadline: nat, first: seq<Tick>, killed: bool,
                           lastDeadline: nat, second: seq<Tick>, last: Wait, closed: bool, removed: bool)

  /** Both pipes at end of file and empty, nothing queued, no child and no job. */
  predicate Quiescent(m: Machine) {
    FullyDrained(m.output) && m.childrenDone && !m.job.active && !m.job.pending
  }

  function Waited(m: Machine, wait: Wait): (Machine, bool) {
    match wait
    case Child(isExec) => (if isExec then m.(job := RemoteExecs.Reaped(m.job)) else m, true)
    case NoChildren => (m.(childrenDone := true), true)
    case Broken => (m, false)
    case _ => (m, true)
  }

  function Serviced(m: Machine, t: Tick): (Machine, bool) {
    var output := Step(m.output, Event.Service(t.sinkOpen, t.count, t.reply0, t.reply1));
    (m.(output := output), !output.pump.failed && output.console.Usable())
  }

  /** The exec job sees the session, and its frames take the session's numbers. */
  function Worked(m: Machine, t: RemoteExecs.Turn): (Machine, bool) {
    var (k, ok) := RemoteExecs.Pumped(m.job, X.SeenTurn(m.session, t));
    (m.(job := k, session := X.JobTurn(X.Guest(m.session, m.job), k).w), ok)
  }

  lemma Numbered(g: X.Guest, k: RemoteExecs.Job)
    ensures var n := if |k.queued| > |g.j.queued| then |k.queued| - |g.j.queued| else 0;
            X.JobTurn(g, k).w == L.Logged(g.w, n).(execBusy := k.pending || k.active)
  {
  }

  function Noted(s: State, notes: seq<seq<byte>>): State
    decreases notes
  {
    if notes == [] then s else Noted(Step(s, Note(notes[0])), notes[1..])
  }

  /** The session is pumped from READY on, unless a natural exit is frozen or an earlier pump has failed. */
  predicate Hears(w: L.World) {
    !w.failed && w.s.life.state != L.New && !w.s.life.frozen
  }

  /** One call of the pump; the host may get an EXEC admitted. */
  function Pumped(m: Machine, inputs: seq<L.Input>): Machine {
    var v := S.Batch(m.session, inputs, S.BATCH_MAX);
    m.(session := v, job := if v.execBusy && !m.session.execBusy then RemoteExecs.Admitted(m.job) else m.job)
  }

  function Heard(m: Machine, t: Tick): Machine {
    if t.inputs.None? || !Hears(m.session) then m
    else
      var n := Pumped(m, t.inputs.value);
      n.(output := Noted(n.output, t.notes))
  }

  /** Reap, service the output once, pump the exec job once; a failure does not end the turn. */
  function Turned(m: Machine, t: Tick, withLifecycle: bool): (Machine, bool) {
    var (a, waited) := Waited(m, t.wait);
    var (b, serviced) := Serviced(a, t);
    if withLifecycle then
      var (c, pumped) := Worked(b, t.exec);
      (c, waited && serviced && pumped)
    else (b, waited && serviced)
  }

  /** Where a turn leaves a loop: at its end, or in front of the next turn. */
  datatype Passed = Ends(m: Machine, ok: bool) | Goes(m: Machine, ok: bool)

  /** The host is still heard while the first loop runs. */
  function LoopTurn(m: Machine, t: Tick, deadline: nat, withLifecycle: bool, hearing: bool): Passed {
    if t.now == 0 then Ends(m, false)
    else if t.now >= deadline then Ends(m, true)
    else
      var (a, turned) := Turned(m, t, withLifecycle);
      if Quiescent(a) then Ends(a, turned)
      else if t.current == 0 || !t.polled then Ends(a, false)
      else Goes(if hearing then Heard(a, t) else a, turned)
  }

  /** One of the two loops; `ok` is what the turns before it left. */
  function Looped(m: Machine, ok: bool, script: seq<Tick>, deadline: nat, withLifecycle: bool,
      hearing: bool): (Machine, bool)
    decreases |script|
  {
    if script == [] then (m, ok)
    else
      var p := LoopTurn(m, script[0], deadline, withLifecycle, hearing);
      if p.Ends? then (p.m, ok && p.ok)
      else Looped(p.m, ok && p.ok, script[1..], deadline, withLifecycle, hearing)
  }

  /** Cancel the exec job and give it and the children their time; is the job gone in time? */
  function Asked(m: Machine, s: Script, withLifecycle: bool): (Machine, bool) {
    var (job, cancelled) := RemoteExecs.Cancelled(m.job, 3, s.cancels);
    var (a, looped) := Looped(m.(job := job), true, s.first, s.deadline, withLifecycle, withLifecycle);
    (a, cancelled && looped && !a.job.active && !a.job.pending)
  }

  /** After the kill: reap what is left, and look once more. */
  function Forced(m: Machine, s: Script, withLifecycle: bool): (Machine, bool) {
    var (b, looped) := Looped(m, true, s.second, s.lastDeadline, withLifecycle, false);
    var (c, waited) := Waited(b, s.last);
    (c, looped && waited && Quiescent(c))
  }

  /** Zero for a failed cleanup, two if only the lifecycle failed, one otherwise. */
  function Terminated(m: Machine, s: Script, withLifecycle: bool): (Machine, nat) {
    var (a, asked) := Asked(m, s, withLifecycle);
    var (c, forced) := Forced(a, s, withLifecycle);
    (c, if !(s.clock != 0 && asked && s.killed && forced && s.closed && s.removed) then 0
        else if withLifecycle && c.session.failed then 2 else 1)
  }

  /** What the verdict says of the state that is left. */
  lemma VerdictMeans(m: Machine, s: Script, withLifecycle: bool)
    ensures var (t, verdict) := Terminated(m, s, withLifecycle);
            && verdict <= 2 && (verdict > 0 ==> Quiescent(t)) && (verdict == 2 ==> withLifecycle && t.session.failed)
  {
  }

  /** Flushes until the queue is empty or the script ends. */
  function FlushedBy(s: State, counts: seq<int>): State
    decreases |counts|
  {
    if counts == [] || s.console.queued == [] || !s.console.inBounds then s
    else
      var (console, taken, _) := Flushed(s.console, counts[0]);
      FlushedBy(s.(console := console, written := s.written + taken), counts[1..])
  }

  /** The supervisor's markers, and what the console takes of the queue behind them. */
  function Reported(s: State, marker: seq<byte>, report: seq<byte>, counts: seq<int>): State {
    FlushedBy(Step(Step(s, Note(marker)), Note(report)), counts)
  }

  /** One turn of a loop, then the others. */
  lemma LoopStep(m: Machine, ok: bool, script: seq<Tick>, rest: seq<Tick>, deadline: nat, withLifecycle: bool,
      hearing: bool, p: Passed)
    requires script != [] && rest == script[1..] && p == LoopTurn(m, script[0], deadline, withLifecycle, hearing)
    ensures Looped(m, ok, script, deadline, withLifecycle, hearing) ==
            if p.Ends? then (p.m, ok && p.ok) else Looped(p.m, ok && p.ok, rest, deadline, withLifecycle, hearing)
  {
  }

  lemma LoopEnds(m: Machine, ok: bool, script: seq<Tick>, deadline: nat, withLifecycle: bool, hearing: bool)
    requires script == []
    ensures Looped(m, ok, script, deadline, withLifecycle, hearing) == (m, ok)
  {
  }

  // ----- Conservation through a teardown

  lemma {:induction false} NotedConserves(s: State, notes: seq<seq<byte>>)
    requires Conserved(s)
    ensures Conserved(Noted(s, notes))
    decreases notes
  {
    if notes != [] {
      NoteConserves(s, notes[0]);
      NotedConserves(Step(s, Note(notes[0])), notes[1..]);
    }
  }

  lemma TurnedServices(m: Machine, t: Tick, withLifecycle: bool)
    ensures Turned(m, t, withLifecycle).0.output ==
            Step(m.output, Event.Service(t.sinkOpen, t.count, t.reply0, t.reply1))
  {
  }

  lemma TurnedConserves(m: Machine, t: Tick, withLifecycle: bool)
    requires Conserved(m.output)
    ensures Conserved(Turned(m, t, withLifecycle).0.output)
  {
    TurnedServices(m, t, withLifecycle);
    StepConserves(m.output, Event.Service(t.sinkOpen, t.count, t.reply0, t.reply1));
  }

  lemma HeardConserves(m: Machine, t: Tick)
    requires Conserved(m.output)
    ensures Conserved(Heard(m, t).output)
  {
    hide Conserved;
    NotedConserves(m.output, t.notes);
  }

  lemma LoopTurnConserves(m: Machine, t: Tick, deadline: nat, withLifecycle: bool, hearing: bool)
    requires Conserved(m.output)
    ensures Conserved(LoopTurn(m, t, deadline, withLifecycle, hearing).m.output)
  {
    hide Turned, Heard, Conserved, Quiescent;
    TurnedConserves(m, t, withLifecycle);
    HeardConserves(Turned(m, t, withLifecycle).0, t);
  }

  lemma {:induction false} LoopedConserves(m: Machine, ok: bool, script: seq<Tick>, deadline: nat,
      withLifecycle: bool, hearing: bool)
    requires Conserved(m.output)
    ensures Conserved(Looped(m, ok, script, deadline, withLifecycle, hearing).0.output)
    decreases |script|
  {
    if script != [] {
      hide LoopTurn;
      var p := LoopTurn(m, script[0], deadline, withLifecycle, hearing);
      LoopTurnConserves(m, script[0], deadline, withLifecycle, hearing);
      if p.Goes? {
        LoopedConserves(p.m, ok && p.ok, script[1..], deadline, withLifecycle, hearing);
      }
    }
  }

  lemma FlushedByStep(s: State, counts: seq<int>, rest: seq<int>)
    requires counts != [] && rest == counts[1..] && s.console.queued != [] && s.console.inBounds
    ensures var (console, taken, _) := Flushed(s.console, counts[0]);
            FlushedBy(s, counts) == FlushedBy(s.(console := console, written := s.written + taken), rest)
  {
  }

  lemma FlushedByEnds(s: State, counts: seq<int>)
    requires counts == [] || s.console.queued == []
    ensures FlushedBy(s, counts) == s
  {
  }

  lemma FlushedInBounds(c: Console, count: int)
    ensures Flushed(c, count).0.inBounds == c.inBounds
  {
  }

  lemma FlushConserves(s: State, count: int)
    requires Conserved(s)
    ensures var (console, taken, _) := Flushed(s.console, count);
            Conserved(s.(console := console, written := s.written + taken))
  {
    var (console, taken, _) := Flushed(s.console, count);
    assert (s.written + taken) + console.queued == s.written + s.console.queued;
  }

  lemma {:induction false} FlushedByConserves(s: State, counts: seq<int>)
    requires Conserved(s)
    ensures Conserved(FlushedBy(s, counts)) && FlushedBy(s, counts).pump == s.pump
    ensures (FlushedBy(s, counts).read0, FlushedBy(s, counts).read1) == (s.read0, s.read1)
    decreases |counts|
  {
    if counts != [] && s.console.queued != [] && s.console.inBounds {
      FlushConserves(s, counts[0]);
      var (console, taken, _) := Flushed(s.console, counts[0]);
      FlushedByConserves(s.(console := console, written := s.written + taken), counts[1..]);
    }
  }

  lemma ReportedConserves(s: State, marker: seq<byte>, report: seq<byte>, counts: seq<int>)
    requires Conserved(s)
    ensures Conserved(Reported(s, marker, report, counts)) && Reported(s, marker, report, counts).pump == s.pump
    ensures Reported(s, marker, report, counts).read0 == s.read0 && Reported(s, marker, report, counts).read1 == s.read1
  {
    NoteConserves(s, marker);
    NoteConserves(Step(s, Note(marker)), report);
    FlushedByConserves(Step(Step(s, Note(marker)), Note(report)), counts);
  }

  lemma AskedConserves(m: Machine, s: Script, withLifecycle: bool)
    requires Conserved(m.output)
    ensures Conserved(Asked(m, s, withLifecycle).0.output)
  {
    var job := RemoteExecs.Cancelled(m.job, 3, s.cancels).0;
    LoopedConserves(m.(job := job), true, s.first, s.deadline, withLifecycle, withLifecycle);
  }

  lemma ForcedConserves(m: Machine, s: Script, withLifecycle: bool)
    requires Conserved(m.output)
    ensures Conserved(Forced(m, s, withLifecycle).0.output)
  {
    LoopedConserves(m, true, s.second, s.lastDeadline, withLifecycle, false);
  }

  lemma TerminatedConserves(m: Machine, s: Script, withLifecycle: bool)
    requires Conserved(m.output)
    ensures Conserved(Terminated(m, s, withLifecycle).0.output)
  {
    AskedConserves(m, s, withLifecycle);
    ForcedConserves(Asked(m, s, withLifecycle).0, s, withLifecycle);
  }

  /** A teardown that succeeds, and an empty console behind the markers, leave nothing undelivered. */
  lemma CleanEnd(m: Machine, s: Script, withLifecycle: bool,
                 marker: seq<byte>, report: seq<byte>, counts: seq<int>)
    requires Conserved(m.output) && Terminated(m, s, withLifecycle).1 == 1
    requires Reported(Terminated(m, s, withLifecycle).0.output, marker, report, counts).console.queued == []
    ensures var t := Terminated(m, s, withLifecycle).0;
            var end := Reported(t.output, marker, report, counts);
            && Quiescent(t) && Drained(end.pump) && Delivered(end)
            && end.read0 == t.output.read0 && end.read1 == t.output.read1
  {
    var t := Terminated(m, s, withLifecycle).0;
    TerminatedConserves(m, s, withLifecycle);
    ReportedConserves(t.output, marker, report, counts);
    DrainedIsDelivered(Reported(t.output, marker, report, counts));
  }

  /**
   The terminal state implies delivery.  After any run of the service and any teardown that
   succeeds, if the console is empty behind the supervisor's markers, then both pipes had
   ended, no child and no job was left, and every byte that was ever read from a pipe, and
   every accepted note, has been written, in order, and nothing else.
   */
  lemma TerminalImpliesDelivery(events: seq<Event>, m: Machine, s: Script, withLifecycle: bool,
                                marker: seq<byte>, report: seq<byte>, counts: seq<int>)
    requires m.output == Run(START, events)
    requires Terminated(m, s, withLifecycle).1 == 1
    requires Reported(Terminated(m, s, withLifecycle).0.output, marker, report, counts).console.queued == []
    ensures var t := Terminated(m, s, withLifecycle).0;
            var end := Reported(t.output, marker, report, counts);
            && Quiescent(t) && Drained(end.pump) && Delivered(end)
            && end.read0 == t.output.read0 && end.read1 == t.output.read1
  {
    RunConserves(START, events);
    CleanEnd(m, s, withLifecycle, marker, report, counts);
  }

  // ----- The program

  class Supervisor {
    const output: MainOutput
    const job: RemoteExecs.RemoteExecJob
    const session: S.LifecycleSession
    var childrenDone: bool

    /** The session's buffers are not those of the output. */
    ghost predicate Apart()
      reads this, output, output.pump, session
    {
      var outputs := {output.queue.bytes, output.pump.stream0.bytes, output.pump.stream1.bytes};
      session.reader.header !in outputs && session.reader.payload !in outputs
    }

    ghost predicate Valid()
      reads this, output, output.queue, output.queue.bytes, output.pump,
            session, session.reader, session.reader.header, session.reader.payload
    {
      output.Valid() && session.Valid() && Apart() && (session.failed || F.Partial(session.reader.View()))
    }

    ghost function View(): Machine
      reads this, output, output.queue, output.queue.bytes, output.pump, output.pump.stream0,
            output.pump.stream0.bytes, output.pump.stream1, output.pump.stream1.bytes, job,
            session, session.reader, session.reader.header, session.reader.payload
      requires Valid()
    {
      Machine(output.View(), job.View(), childrenDone, session.View())
    }

    constructor (output: MainOutput, job: RemoteExecs.RemoteExecJob, session: S.LifecycleSession)
      requires output.Valid() && session.Valid() && (session.failed || F.Partial(session.reader.View()))
      requires var outputs := {output.queue.bytes, output.pump.stream0.bytes, output.pump.stream1.bytes};
               session.reader.header !in outputs && session.reader.payload !in outputs
      ensures Valid() && this.output == output && this.job == job && this.session == session
      ensures View() == Machine(output.View(), job.View(), false, session.View())
    {
      this.output, this.job, this.session, childrenDone := output, job, session, false;
    }

    method IsQuiescent() returns (quiescent: bool)
      requires Valid()
      ensures quiescent == Quiescent(View())
    {
      var drained := output.pump.IsDrained();
      var queue := output.queue;
      if drained && !queue.failed && queue.offset == queue.used && queue.used <= QUEUE_BYTES {
        return childrenDone && !job.active && !job.pending;
      }
      return false;
    }

    method TakeWait(wait: Wait) returns (ok: bool)
      requires Valid()
      modifies this`childrenDone, job
      ensures Valid() && (View(), ok) == Waited(old(View()), wait)
    {
      match wait
      case Child(isExec) =>
        if isExec {
          job.Reap();
        }
        return true;
      case NoChildren =>
        childrenDone := true;
        return true;
      case Broken => return false;
      case _ => return true;
    }

    method SessionSeen(t: RemoteExecs.Turn) returns (seen: RemoteExecs.Turn)
      requires Valid()
      ensures seen == X.SeenTurn(session.View(), t)
    {
      return t.(ready := session.life.state == L.Ready, connected := session.reader.connected,
                late := t.clock >= session.execDeadline);
    }

    /** The exec job's turn, as the session lets it see the world. */
    method RunJob(t: RemoteExecs.Turn) returns (ok: bool)
      requires Valid()
      modifies job
      ensures Valid() && (job.View(), ok) == RemoteExecs.Pumped(old(job.View()), X.SeenTurn(session.View(), t))
      ensures View() == old(View()).(job := job.View())
    {
      hide RemoteExecs.Pumped, F.Partial, X.SeenTurn, MainOutput.View, MainOutput.Valid;
      var seen := SessionSeen(t);
      ok := job.PumpRemoteExec(seen);
    }

    /** The job's new frames take the session's numbers. */
    method NumberJob(before: nat, ghost j: RemoteExecs.Job)
      requires Valid() && before == |j.queued|
      modifies session`nextSequence, session`sent, session`execBusy
      ensures Valid()
      ensures View() == old(View()).(session := X.JobTurn(X.Guest(old(session.View()), j), job.View()).w)
    {
      hide L.Logged, X.JobTurn, F.Partial, MainOutput.View, MainOutput.Valid;
      Numbered(X.Guest(session.View(), j), job.View());
      session.NumberFrames(if |job.queued| > before then |job.queued| - before else 0, job.pending || job.active);
    }

    /** The exec job's turn sees the session, and its frames take the session's numbers. */
    method PumpJob(t: RemoteExecs.Turn) returns (ok: bool)
      requires Valid()
      modifies job, session`nextSequence, session`sent, session`execBusy
      ensures Valid() && (View(), ok) == Worked(old(View()), t)
    {
      hide RemoteExecs.Pumped, X.SeenTurn, X.JobTurn, F.Partial, MainOutput.View, MainOutput.Valid;
      var before := |job.queued|;
      ghost var j := job.View();
      ok := RunJob(t);
      NumberJob(before, j);
    }

    method Turn(t: Tick, withLifecycle: bool) returns (ok: bool)
      requires Valid()
      modifies this`childrenDone, job, output, output.queue, output.queue.bytes, output.pump, output.pump.stream0,
               output.pump.stream0.bytes, output.pump.stream1, output.pump.stream1.bytes, session
      ensures Valid() && (View(), ok) == Turned(old(View()), t, withLifecycle)
    {
      hide Worked, Waited, Step, F.Partial, MainOutput.View;
      ok := TakeWait(t.wait);
      var serviced := output.Service(t.sinkOpen, t.count, t.reply0, t.reply1);
      ok := ok && serviced;
      if withLifecycle {
        var pumped := PumpJob(t.exec);
        ok := ok && pumped;
      }
    }

    /** The lines that the session puts on the console. */
    method TakeNotes(notes: seq<seq<byte>>)
      requires Valid()
      modifies output, output.queue, output.queue.bytes
      ensures Valid() && View() == old(View()).(output := Noted(old(output.View()), notes))
    {
      hide Step, F.Partial;
      ghost var start := output.View();
      assert notes[0..] == notes;
      var i := 0;
      while i < |notes|
        invariant 0 <= i <= |notes| && Valid() && Noted(start, notes) == Noted(output.View(), notes[i..])
      {
        assert notes[i..][0] == notes[i] && notes[i..][1..] == notes[i + 1..];
        var text := new byte[|notes[i]|](k requires 0 <= k < |notes[i]| => notes[i][k]);
        assert text[..] == notes[i];
        var _ := output.WriteNote(text);
        i := i + 1;
      }
    }

    /** The session is pumped, and the job hears of an EXEC that was admitted. */
    method PumpSession(inputs: seq<L.Input>)
      requires Valid() && Hears(session.View())
      modifies job, session, session.reader, session.reader.header, session.reader.payload
      ensures Valid() && View() == Pumped(old(View()), inputs)
    {
      hide S.Batch, F.Partial, RemoteExecs.Admitted, MainOutput.View, MainOutput.Valid;
      var was := session.execBusy;
      var _, _, _ := session.LifecyclePump(inputs);
      if session.execBusy && !was {
        job.Admit();
      }
    }

    /** One call of the session's pump, if it is due and has not failed. */
    method Hear(t: Tick)
      requires Valid()
      modifies job, output, output.queue, output.queue.bytes,
               session, session.reader, session.reader.header, session.reader.payload
      ensures Valid() && View() == Heard(old(View()), t)
    {
      hide Pumped, Noted, F.Partial;
      if t.inputs.None? || session.failed || session.life.state == L.New || session.life.frozen {
        return;
      }
      PumpSession(t.inputs.value);
      TakeNotes(t.notes);
    }

    method LoopOnce(t: Tick, deadline: nat, withLifecycle: bool, hearing: bool) returns (ok: bool, ends: bool)
      requires Valid()
      modifies this`childrenDone, job, output, output.queue, output.queue.bytes, output.pump, output.pump.stream0,
               output.pump.stream0.bytes, output.pump.stream1, output.pump.stream1.bytes,
               session, session.reader, session.reader.header, session.reader.payload
      ensures Valid()
      ensures LoopTurn(old(View()), t, deadline, withLifecycle, hearing) == if ends then Ends(View(), ok)
              else Goes(View(), ok)
    {
      hide Turned, Heard, Quiescent, F.Partial;
      if t.now == 0 {
        return false, true;
      }
      if t.now >= deadline {
        return true, true;
      }
      ok := Turn(t, withLifecycle);
      var done := IsQuiescent();
      if done {
        return ok, true;
      }
      if t.current == 0 || !t.polled {
        return false, true;
      }
      if hearing {
        Hear(t);
      }
      return ok, false;
    }

    /** The next turn of the script; `all` is what the whole loop comes to. */
    method LoopNext(before: bool, t: Tick, ghost script: seq<Tick>, ghost rest: seq<Tick>, deadline: nat,
        withLifecycle: bool,
                    hearing: bool, ghost all: (Machine, bool)) returns (ok: bool, ends: bool)
      requires Valid() && script != [] && script[0] == t && script[1..] == rest
      requires all == Looped(View(), before, script, deadline, withLifecycle, hearing)
      modifies this`childrenDone, job, output, output.queue, output.queue.bytes, output.pump, output.pump.stream0,
               output.pump.stream0.bytes, output.pump.stream1, output.pump.stream1.bytes,
               session, session.reader, session.reader.header, session.reader.payload
      ensures Valid()
      ensures all == if ends then (View(), ok) else Looped(View(), ok, rest, deadline, withLifecycle, hearing)
    {
      LoopStep(View(), before, script, rest, deadline, withLifecycle, hearing,
               LoopTurn(View(), t, deadline, withLifecycle, hearing));
      ok, ends := LoopOnce(t, deadline, withLifecycle, hearing);
      ok := before && ok;
    }

    method Loop(script: seq<Tick>, deadline: nat, withLifecycle: bool, hearing: bool) returns (ok: bool)
      requires Valid()
      modifies this`childrenDone, job, output, output.queue, output.queue.bytes, output.pump, output.pump.stream0,
               output.pump.stream0.bytes, output.pump.stream1, output.pump.stream1.bytes,
               session, session.reader, session.reader.header, session.reader.payload
      ensures Valid() && (View(), ok) == Looped(old(View()), true, script, deadline, withLifecycle, hearing)
    {
      hide Looped, F.Partial;
      ok := true;
      ghost var all := Looped(View(), true, script, deadline, withLifecycle, hearing);
      var i := 0;
      assert script[0..] == script;
      while i < |script|
        invariant 0 <= i <= |script| && Valid()
        invariant all == Looped(View(), ok, script[i..], deadline, withLifecycle, hearing)
      {
        ghost var rest := script[i + 1..];
        assert script[i..][0] == script[i] && script[i..][1..] == rest;
        var ends;
        ok, ends := LoopNext(ok, script[i], script[i..], rest, deadline, withLifecycle, hearing, all);
        if ends {
          return;
        }
        i := i + 1;
      }
      LoopEnds(View(), ok, script[i..], deadline, withLifecycle, hearing);
    }

    method Ask(s: Script, withLifecycle: bool) returns (ok: bool)
      requires Valid()
      modifies this`childrenDone, job, output, output.queue, output.queue.bytes, output.pump, output.pump.stream0,
               output.pump.stream0.bytes, output.pump.stream1, output.pump.stream1.bytes,
               session, session.reader, session.reader.header, session.reader.payload
      ensures Valid() && (View(), ok) == Asked(old(View()), s, withLifecycle)
    {
      hide Looped, RemoteExecs.Cancelled, F.Partial;
      var cancelled := job.Cancel(3, s.cancels);
      var looped := Loop(s.first, s.deadline, withLifecycle, withLifecycle);
      return cancelled && looped && !job.active && !job.pending;
    }

    method Force(s: Script, withLifecycle: bool) returns (ok: bool)
      requires Valid()
      modifies this`childrenDone, job, output, output.queue, output.queue.bytes, output.pump, output.pump.stream0,
               output.pump.stream0.bytes, output.pump.stream1, output.pump.stream1.bytes,
               session, session.reader, session.reader.header, session.reader.payload
      ensures Valid() && (View(), ok) == Forced(old(View()), s, withLifecycle)
    {
      hide Looped, Waited, Quiescent, F.Partial;
      var looped := Loop(s.second, s.lastDeadline, withLifecycle, false);
      var waited := TakeWait(s.last);
      var quiescent := IsQuiescent();
      return looped && waited && quiescent;
    }

    method TerminateAndReap(s: Script, withLifecycle: bool) returns (result: nat)
      requires Valid()
      modifies this`childrenDone, job, output, output.queue, output.queue.bytes, output.pump, output.pump.stream0,
               output.pump.stream0.bytes, output.pump.stream1, output.pump.stream1.bytes,
               session, session.reader, session.reader.header, session.reader.payload
      ensures Valid() && (View(), result) == Terminated(old(View()), s, withLifecycle)
    {
      var asked := Ask(s, withLifecycle);
      var forced := Force(s, withLifecycle);
      if !(s.clock != 0 && asked && s.killed && forced && s.closed && s.removed) {
        return 0;
      }
      return if withLifecycle && session.failed then 2 else 1;
    }

    method FlushBounded(counts: seq<int>)
      requires Valid() && output.queue.View().inBounds
      modifies output, output.queue
      ensures Valid() && output.View() == FlushedBy(old(output.View()), counts)
      ensures job.View() == old(job.View()) && childrenDone == old(childrenDone) &&
              session.View() == old(session.View())
    {
      hide Flushed, FlushedBy, F.Partial;
      hide S.LifecycleSession.View, S.LifecycleSession.Valid, RemoteExecs.RemoteExecJob.View;
      ghost var start := output.View();
      var i := 0;
      assert counts[0..] == counts;
      while i < |counts| && output.queue.offset != output.queue.used
        invariant 0 <= i <= |counts| && Valid() && output.queue.View().inBounds
        invariant FlushedBy(start, counts) == FlushedBy(output.View(), counts[i..])
      {
        assert counts[i..][0] == counts[i] && counts[i..][1..] == counts[i + 1..];
        FlushedInBounds(output.queue.View(), counts[i]);
        FlushedByStep(output.View(), counts[i..], counts[i + 1..]);
        output.FlushConsole(true, counts[i]);
        i := i + 1;
      }
      FlushedByEnds(output.View(), counts[i..]);
    }

    /**
     The gate in front of TERMINAL: the teardown succeeded, the supervisor's markers went
     out as well, and the console took everything.
     */
    method Conclude(result: nat, verified: bool, marker: array<byte>, report: array<byte>, counts: seq<int>,
        sinkValid: bool)
      returns (terminal: bool)
      requires Valid() && (result > 0 ==> Quiescent(View()))
      requires marker != output.queue.bytes && report != output.queue.bytes
      modifies output, output.queue, output.queue.bytes
      ensures Valid() && job.View() == old(job.View()) && childrenDone == old(childrenDone) &&
              session.View() == old(session.View())
      ensures output.View() == if result != 1 || !verified then old(output.View())
                               else Reported(old(output.View()), old(marker[..]), old(report[..]), counts)
      ensures terminal <==>
                result == 1 && verified && sinkValid &&
                output.View().console.Usable() && output.View().console.queued == []
    {
      hide FlushedBy, F.Partial;
      if result != 1 || !verified {
        return false;
      }
      ghost var second := report[..];
      var _ := output.WriteNote(marker);
      var _ := output.WriteNote(report);
      assert output.View() == Step(Step(old(output.View()), Note(old(marker[..]))), Note(second));
      FlushBounded(counts);
      var queue := output.queue;
      return !(queue.failed || queue.offset != queue.used || queue.used > QUEUE_BYTES) && sinkValid;
    }
  }
}
