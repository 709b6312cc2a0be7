/**
 When a teardown succeeds.

 The two loops are described by the machines in front of their turns, and the verdict by what each
 turn finds; the loops of the program reach exactly that end.
 */
module TeardownVerdicts {
  import opened Bytes
  import opened ConsoleQueues
  import opened OutputPumps
  import opened MainOutputs
  import FrameReaders
  import L = Lifecycles
  import S = LifecycleSessions
  import RemoteExecs
  import X = ExecSessions
  import opened Teardowns

  // ----- One turn

  function ServiceOf(t: Tick): MainOutputs.Event {
    MainOutputs.Event.Service(t.sinkOpen, t.count, t.reply0, t.reply1)
  }

  /** The job when its child may have been reaped. */
  function JobAfterWait(m: Machine, t: Tick): RemoteExecs.Job {
    if t.wait == Child(true) && m.job.active then m.job.(reaped := true) else m.job
  }

  /** What one turn makes of the machine: one service, one reaping, and one turn of the job. */
  function Next(m: Machine, t: Tick, withLifecycle: bool): Machine {
    var j := JobAfterWait(m, t);
    var k := if withLifecycle then RemoteExecs.Pumped(j, X.SeenTurn(m.session, t.exec)).0 else j;
    Machine(MainOutputs.Step(m.output, ServiceOf(t)), k, m.childrenDone || t.wait == NoChildren,
            if withLifecycle then X.JobTurn(X.Guest(m.session, j), k).w else m.session)
  }

  /** Nothing goes wrong in the turn: not the wait, not the output, not the job. */
  predicate Fine(m: Machine, t: Tick, withLifecycle: bool) {
    var a := Next(m, t, withLifecycle);
    && t.wait != Broken && !a.output.pump.failed && a.output.console.Usable()
    && (withLifecycle ==> RemoteExecs.Pumped(JobAfterWait(m, t), X.SeenTurn(m.session, t.exec)).1)
  }

  lemma TurnMeans(m: Machine, t: Tick, withLifecycle: bool)
    ensures Turned(m, t, withLifecycle) == (Next(m, t, withLifecycle), Fine(m, t, withLifecycle))
  {
    hide RemoteExecs.Pumped, X.SeenTurn, X.JobTurn, MainOutputs.Step, Console.Usable;
  }

  /** What the host sends is heard from READY on, unless a natural exit is frozen; an EXEC gets its job admitted. */
  lemma HostIsHeard(m: Machine, t: Tick, i: L.Input)
    requires t.inputs == Some([i])
    ensures var v := L.Step(m.session, L.PumpTurn(i));
            var heard := !m.session.failed && m.session.s.life.state != L.New && !m.session.s.life.frozen;
            && (heard ==> Heard(m, t).session == v)
            && (heard && v.execBusy && !m.session.execBusy && !m.job.active && !m.job.pending ==>
                  Heard(m, t).job == m.job.(pending := true, job := m.job.job + 1))
            && (!heard ==> Heard(m, t) == m)
  {
    hide L.Pump, FrameReaders.Called;
    assert S.Batch(m.session, [i], S.BATCH_MAX) == L.Pump(m.session, i) by {
      S.BatchStep(m.session, [i], S.BATCH_MAX);
      S.BatchEnds(L.Pump(m.session, i), [], S.BATCH_MAX - 1);
    }
  }

  /** Both pipes ended and empty, nothing queued, no child and no job. */
  predicate AtRest(m: Machine) {
    FullyDrained(m.output) && m.childrenDone && !m.job.active && !m.job.pending
  }

  // ----- One loop

  /** The machine in front of turn `n`, as long as no turn ends the loop. */
  function Before(m: Machine, script: seq<Tick>, withLifecycle: bool, hearing: bool, n: nat): Machine
    requires n <= |script|
    decreases n
  {
    if n == 0 then m
    else
      var a := Next(Before(m, script, withLifecycle, hearing, n - 1), script[n - 1], withLifecycle);
      if hearing then Heard(a, script[n - 1]) else a
  }

  /** A turn that goes well and leaves more to do. */
  predicate GoesOn(m: Machine, t: Tick, deadline: nat, withLifecycle: bool) {
    && 0 < t.now < deadline && Fine(m, t, withLifecycle) && !AtRest(Next(m, t, withLifecycle))
    && t.current != 0 && t.polled
  }

  /** A turn that goes well and finds the machine at rest. */
  predicate ComesToRest(m: Machine, t: Tick, deadline: nat, withLifecycle: bool) {
    0 < t.now < deadline && Fine(m, t, withLifecycle) && AtRest(Next(m, t, withLifecycle))
  }

  /** The first `n` turns go well and leave more to do. */
  ghost predicate GoOn(m: Machine, script: seq<Tick>, deadline: nat, withLifecycle: bool, hearing: bool, n: nat)
    requires n <= |script|
  {
    forall k | 0 <= k < n ::
      GoesOn(Before(m, script, withLifecycle, hearing, k), script[k], deadline, withLifecycle)
  }

  /** The loop ends well at turn `n`, with `a`: out of time, at rest, or at the end of the script. */
  ghost predicate EndsWell(m: Machine, script: seq<Tick>, deadline: nat, withLifecycle: bool, hearing: bool, n: nat,
                           a: Machine)
  {
    && n <= |script| && GoOn(m, script, deadline, withLifecycle, hearing, n)
    && var b := Before(m, script, withLifecycle, hearing, n);
       || (n == |script| && a == b)
       || (n < |script| && script[n].now != 0 && script[n].now >= deadline && a == b)
       || (n < |script| && ComesToRest(b, script[n], deadline, withLifecycle) && a == Next(b, script[n], withLifecycle))
  }

  lemma {:induction false} BeforeShifts(m: Machine, script: seq<Tick>, withLifecycle: bool, hearing: bool, n: nat)
    requires n < |script|
    ensures Before(m, script, withLifecycle, hearing, n + 1) ==
            Before(Before(m, script, withLifecycle, hearing, 1), script[1..], withLifecycle, hearing, n)
    decreases n
  {
    hide Next, Heard;
    if n > 0 {
      BeforeShifts(m, script, withLifecycle, hearing, n - 1);
      assert script[1..][n - 1] == script[n];
    }
  }

  /** What the first turn of a loop does. */
  lemma FirstTurn(m: Machine, script: seq<Tick>, deadline: nat, withLifecycle: bool, hearing: bool)
    requires script != []
    ensures var t, p := script[0], LoopTurn(m, script[0], deadline, withLifecycle, hearing);
            && (p.Goes? && p.ok <==> GoesOn(m, t, deadline, withLifecycle))
            && (p.Goes? ==> p.m == Before(m, script, withLifecycle, hearing, 1))
            && (p.Ends? && p.ok <==>
                  (t.now != 0 && t.now >= deadline) || ComesToRest(m, t, deadline, withLifecycle))
            && (p.Ends? && p.ok ==> p.m == if t.now >= deadline then m else Next(m, t, withLifecycle))
  {
    TurnMeans(m, script[0], withLifecycle);
    assert Before(m, script, withLifecycle, hearing, 0) == m;
    hide Next, Fine, Turned, Heard, FullyDrained;
  }

  lemma {:induction false} FailedStaysFailed(m: Machine, script: seq<Tick>, deadline: nat, withLifecycle: bool,
                                             hearing: bool)
    ensures !Looped(m, false, script, deadline, withLifecycle, hearing).1
    decreases |script|
  {
    hide LoopTurn;
    if script != [] {
      var p := LoopTurn(m, script[0], deadline, withLifecycle, hearing);
      if p.Goes? {
        FailedStaysFailed(p.m, script[1..], deadline, withLifecycle, hearing);
      }
    }
  }

  lemma GoOnShifts(m: Machine, script: seq<Tick>, deadline: nat, withLifecycle: bool, hearing: bool, n: nat)
    requires n < |script| && GoesOn(m, script[0], deadline, withLifecycle)
    ensures GoOn(m, script, deadline, withLifecycle, hearing, n + 1) <==>
            GoOn(Before(m, script, withLifecycle, hearing, 1), script[1..], deadline, withLifecycle, hearing, n)
  {
    var m1, rest := Before(m, script, withLifecycle, hearing, 1), script[1..];
    assert Before(m, script, withLifecycle, hearing, 0) == m;
    hide Next, Heard, GoesOn, ComesToRest, Before;
    forall k | 0 <= k < n
      ensures Before(m, script, withLifecycle, hearing, k + 1) == Before(m1, rest, withLifecycle, hearing, k)
      ensures script[k + 1] == rest[k]
    {
      BeforeShifts(m, script, withLifecycle, hearing, k);
    }
    if GoOn(m, script, deadline, withLifecycle, hearing, n + 1) {
      forall k | 0 <= k < n
        ensures GoesOn(Before(m1, rest, withLifecycle, hearing, k), rest[k], deadline, withLifecycle)
      {
        assert GoesOn(Before(m, script, withLifecycle, hearing, k + 1), script[k + 1], deadline, withLifecycle);
      }
    }
    if GoOn(m1, rest, deadline, withLifecycle, hearing, n) {
      forall k | 0 <= k < n + 1
        ensures GoesOn(Before(m, script, withLifecycle, hearing, k), script[k], deadline, withLifecycle)
      {
        if k > 0 {
          assert GoesOn(Before(m1, rest, withLifecycle, hearing, k - 1), rest[k - 1], deadline, withLifecycle);
        }
      }
    }
  }

  lemma EndsLater(m: Machine, script: seq<Tick>, deadline: nat, withLifecycle: bool, hearing: bool, n: nat, a: Machine)
    requires n < |script| && GoesOn(m, script[0], deadline, withLifecycle)
    ensures EndsWell(m, script, deadline, withLifecycle, hearing, n + 1, a) <==>
            EndsWell(Before(m, script, withLifecycle, hearing, 1), script[1..], deadline, withLifecycle, hearing, n, a)
  {
    GoOnShifts(m, script, deadline, withLifecycle, hearing, n);
    BeforeShifts(m, script, withLifecycle, hearing, n);
    assert n + 1 < |script| ==> script[n + 1] == script[1..][n];
    hide Next, Heard, GoesOn, ComesToRest, Before, GoOn;
  }

  /** A loop ends at its first turn, or goes on to the others. */
  lemma EndsFirst(m: Machine, script: seq<Tick>, deadline: nat, withLifecycle: bool, hearing: bool, n: nat, a: Machine)
    requires script != []
    ensures EndsWell(m, script, deadline, withLifecycle, hearing, n, a) && n == 0 <==>
            var p := LoopTurn(m, script[0], deadline, withLifecycle, hearing); n == 0 && p.Ends? && p.ok && a == p.m
    ensures EndsWell(m, script, deadline, withLifecycle, hearing, n, a) && n > 0 ==>
            var p := LoopTurn(m, script[0], deadline, withLifecycle, hearing); p.Goes? && p.ok
  {
    FirstTurn(m, script, deadline, withLifecycle, hearing);
    assert Before(m, script, withLifecycle, hearing, 0) == m;
    if EndsWell(m, script, deadline, withLifecycle, hearing, n, a) && n > 0 {
      assert GoesOn(Before(m, script, withLifecycle, hearing, 0), script[0], deadline, withLifecycle);
    }
    hide Next, Heard, Fine, LoopTurn, AtRest;
  }

  lemma EndsWithin(m: Machine, script: seq<Tick>, deadline: nat, withLifecycle: bool, hearing: bool, n: nat, a: Machine)
    requires EndsWell(m, script, deadline, withLifecycle, hearing, n, a)
    ensures n <= |script|
  {
  }

  /** Behind a turn that goes on, the loop ends well exactly when the rest of it does. */
  lemma WaysOn(m: Machine, script: seq<Tick>, deadline: nat, withLifecycle: bool, hearing: bool, a: Machine, p: Passed)
    requires script != [] && p == LoopTurn(m, script[0], deadline, withLifecycle, hearing) && p.Goes? && p.ok
    ensures (exists n: nat :: EndsWell(m, script, deadline, withLifecycle, hearing, n, a)) <==>
            exists n: nat :: EndsWell(p.m, script[1..], deadline, withLifecycle, hearing, n, a)
  {
    FirstTurn(m, script, deadline, withLifecycle, hearing);
    hide Next, Heard, GoesOn, ComesToRest, LoopTurn, EndsWell, Before;
    if n: nat :| EndsWell(p.m, script[1..], deadline, withLifecycle, hearing, n, a) {
      EndsWithin(p.m, script[1..], deadline, withLifecycle, hearing, n, a);
      EndsLater(m, script, deadline, withLifecycle, hearing, n, a);
    }
    if n: nat :| EndsWell(m, script, deadline, withLifecycle, hearing, n, a) {
      EndsWithin(m, script, deadline, withLifecycle, hearing, n, a);
      EndsFirst(m, script, deadline, withLifecycle, hearing, n, a);
      if n > 0 {
        EndsLater(m, script, deadline, withLifecycle, hearing, n - 1, a);
      }
    }
  }

  /** A turn that does not go on decides the loop. */
  lemma NoWayOn(m: Machine, script: seq<Tick>, deadline: nat, withLifecycle: bool, hearing: bool, a: Machine, p: Passed)
    requires script != [] && p == LoopTurn(m, script[0], deadline, withLifecycle, hearing) && !(p.Goes? && p.ok)
    ensures (exists n: nat :: EndsWell(m, script, deadline, withLifecycle, hearing, n, a)) <==>
            p.Ends? && p.ok && a == p.m
  {
    EndsFirst(m, script, deadline, withLifecycle, hearing, 0, a);
    hide LoopTurn, EndsWell;
    if n: nat :| EndsWell(m, script, deadline, withLifecycle, hearing, n, a) {
      EndsFirst(m, script, deadline, withLifecycle, hearing, n, a);
    }
  }

  /** The loop of the program succeeds exactly when some turn ends it well, and leaves what that turn leaves. */
  lemma {:induction false} LoopSucceedsIff(m: Machine, script: seq<Tick>, deadline: nat, withLifecycle: bool,
                                           hearing: bool, a: Machine)
    ensures Looped(m, true, script, deadline, withLifecycle, hearing) == (a, true) <==>
            exists n: nat :: EndsWell(m, script, deadline, withLifecycle, hearing, n, a)
    decreases |script|
  {
    if script == [] {
      LoopEnds(m, true, script, deadline, withLifecycle, hearing);
      assert Before(m, script, withLifecycle, hearing, 0) == m;
      assert a == m ==> EndsWell(m, script, deadline, withLifecycle, hearing, 0, m);
    } else {
      hide LoopTurn, EndsWell, Looped;
      var p, rest := LoopTurn(m, script[0], deadline, withLifecycle, hearing), script[1..];
      LoopStep(m, true, script, rest, deadline, withLifecycle, hearing, p);
      if p.Goes? && p.ok {
        LoopSucceedsIff(p.m, rest, deadline, withLifecycle, hearing, a);
        WaysOn(m, script, deadline, withLifecycle, hearing, a, p);
      } else {
        FailedStaysFailed(p.m, rest, deadline, withLifecycle, hearing);
        NoWayOn(m, script, deadline, withLifecycle, hearing, a, p);
      }
    }
  }

  // ----- The verdict

  /** The kernel kills the job's processes, or there is nothing to kill. */
  predicate Stoppable(j: RemoteExecs.Job, cancels: bool) {
    !j.active || j.phase == 3 || j.phase == 4 || j.killed || cancels
  }

  /** The last wait finds the machine at rest. */
  predicate LastWait(b: Machine, s: Script, c: Machine) {
    && s.last != Broken && AtRest(c)
    && c == b.(childrenDone := b.childrenDone || s.last == NoChildren,
               job := if s.last == Child(true) && b.job.active then b.job.(reaped := true) else b.job)
  }

  /** The first loop ends well, in turn `n`, and without the job. */
  ghost predicate FirstLoopEnds(m: Machine, s: Script, withLifecycle: bool, n: nat, a: Machine) {
    && Stoppable(m.job, s.cancels)
    && EndsWell(m.(job := RemoteExecs.Cancelled(m.job, 3, s.cancels).0), s.first, s.deadline, withLifecycle,
                withLifecycle, n, a)
    && !a.job.active && !a.job.pending
  }

  /**
   The whole path of a teardown that cleans up: the first loop ends well in `a`, the second in `b`,
   the last wait finds the machine at rest in `c`, and the system calls between them succeed.
   */
  ghost predicate CleansUp(m: Machine, s: Script, withLifecycle: bool, n: nat, a: Machine, k: nat, b: Machine,
                           c: Machine)
  {
    && s.clock != 0 && s.killed && s.closed && s.removed
    && FirstLoopEnds(m, s, withLifecycle, n, a)
    && EndsWell(a, s.second, s.lastDeadline, withLifecycle, false, k, b)
    && LastWait(b, s, c)
  }

  lemma StoppableMeans(j: RemoteExecs.Job, cancels: bool)
    ensures RemoteExecs.Cancelled(j, 3, cancels).1 == (Stoppable(j, cancels) || (j.pending && !j.active))
    ensures !j.active ==> Stoppable(j, cancels)
  {
  }

  lemma AskedIff(m: Machine, s: Script, withLifecycle: bool, a: Machine)
    ensures Asked(m, s, withLifecycle) == (a, true) <==> exists n :: FirstLoopEnds(m, s, withLifecycle, n, a)
  {
    StoppableMeans(m.job, s.cancels);
    var j := m.(job := RemoteExecs.Cancelled(m.job, 3, s.cancels).0);
    LoopSucceedsIff(j, s.first, s.deadline, withLifecycle, withLifecycle, a);
    hide Looped, EndsWell, RemoteExecs.Cancelled, Stoppable;
    if n: nat :| EndsWell(j, s.first, s.deadline, withLifecycle, withLifecycle, n, a) {
      assert Asked(m, s, withLifecycle) == (a, true) ==> FirstLoopEnds(m, s, withLifecycle, n, a);
    }
  }

  lemma ForcedIff(a: Machine, s: Script, withLifecycle: bool, c: Machine)
    ensures Forced(a, s, withLifecycle) == (c, true) <==>
            exists k, b :: EndsWell(a, s.second, s.lastDeadline, withLifecycle, false, k, b) && LastWait(b, s, c)
  {
    var b := Looped(a, true, s.second, s.lastDeadline, withLifecycle, false).0;
    LoopSucceedsIff(a, s.second, s.lastDeadline, withLifecycle, false, b);
    forall k, x | EndsWell(a, s.second, s.lastDeadline, withLifecycle, false, k, x) ensures x == b {
      LoopSucceedsIff(a, s.second, s.lastDeadline, withLifecycle, false, x);
    }
    LastWaitMeans(b, s);
    hide Looped, EndsWell, LastWait, Waited, Quiescent;
  }

  lemma LastWaitMeans(b: Machine, s: Script)
    ensures forall c :: LastWait(b, s, c) <==> Waited(b, s.last) == (c, true) && Quiescent(c)
  {
    hide FullyDrained;
  }

  /**
   A teardown cleans up exactly along such a path, and then its verdict is two for a session that
   has failed and one otherwise; in every other case the verdict is zero.
   */
  lemma VerdictIff(m: Machine, s: Script, withLifecycle: bool)
    ensures var (t, verdict) := Terminated(m, s, withLifecycle);
            && (verdict > 0 <==> exists n, a, k, b, c :: CleansUp(m, s, withLifecycle, n, a, k, b, c))
            && (forall n, a, k, b, c | CleansUp(m, s, withLifecycle, n, a, k, b, c) ::
                  t == c && verdict == if withLifecycle && c.session.failed then 2 else 1)
  {
    var (t, verdict) := Terminated(m, s, withLifecycle);
    forall n, a, k, b, c | CleansUp(m, s, withLifecycle, n, a, k, b, c)
      ensures t == c && verdict == if withLifecycle && c.session.failed then 2 else 1
    {
      PathDecides(m, s, withLifecycle, n, a, k, b, c);
    }
    if verdict > 0 {
      HasPath(m, s, withLifecycle);
    }
  }

  lemma PathDecides(m: Machine, s: Script, withLifecycle: bool, n: nat, a: Machine, k: nat, b: Machine, c: Machine)
    requires CleansUp(m, s, withLifecycle, n, a, k, b, c)
    ensures Terminated(m, s, withLifecycle) == (c, if withLifecycle && c.session.failed then 2 else 1)
  {
    AskedIff(m, s, withLifecycle, a);
    ForcedIff(a, s, withLifecycle, c);
    hide Asked, Forced, FirstLoopEnds, EndsWell, LastWait;
    assert FirstLoopEnds(m, s, withLifecycle, n, a);
    assert EndsWell(a, s.second, s.lastDeadline, withLifecycle, false, k, b) && LastWait(b, s, c);
  }

  lemma HasPath(m: Machine, s: Script, withLifecycle: bool)
    requires Terminated(m, s, withLifecycle).1 > 0
    ensures exists n, a, k, b, c :: CleansUp(m, s, withLifecycle, n, a, k, b, c)
  {
    var a := Asked(m, s, withLifecycle).0;
    var c := Forced(a, s, withLifecycle).0;
    AskedIff(m, s, withLifecycle, a);
    ForcedIff(a, s, withLifecycle, c);
    hide Asked, Forced, FirstLoopEnds, EndsWell, LastWait;
    var n :| FirstLoopEnds(m, s, withLifecycle, n, a);
    var k, b :| EndsWell(a, s.second, s.lastDeadline, withLifecycle, false, k, b) && LastWait(b, s, c);
    assert CleansUp(m, s, withLifecycle, n, a, k, b, c);
  }

  // ----- A teardown can succeed

  /** A turn in which the sink takes what it is offered and nothing else happens. */
  function QuietTick(m: Machine, exec: RemoteExecs.Turn): Tick {
    Tick(1, 1, NoChildren, true, |Offered(m.output.console)|, OutputPumps.Reply.Errno(EAGAIN),
         OutputPumps.Reply.Errno(EAGAIN), exec, true, None, [])
  }

  /** Only output is left to be delivered. */
  predicate Winding(m: Machine) {
    Healthy(m.output) && AtEof(m.output) && !m.job.active && !m.job.pending
  }

  /** A quiet turn delivers, and leaves the session as it is but for the job that it does not have. */
  lemma QuietTurn(m: Machine, exec: RemoteExecs.Turn, withLifecycle: bool)
    requires Winding(m)
    ensures var a := Next(m, QuietTick(m, exec), withLifecycle);
            && Fine(m, QuietTick(m, exec), withLifecycle) && Winding(a) && a.childrenDone
            && a.session.failed == m.session.failed
            && (FullyDrained(m.output) ==> AtRest(a))
            && (!FullyDrained(m.output) ==> Weight(a.output) < Weight(m.output))
  {
    var e := ServiceOf(QuietTick(m, exec));
    if FullyDrained(m.output) {
      DrainedIsStable(m.output, e);
    } else {
      DrainStep(m.output, e);
    }
    IdleJob(m, exec);
    hide MainOutputs.Step, RemoteExecs.Pumped, X.JobTurn, X.SeenTurn;
  }

  lemma IdleJob(m: Machine, exec: RemoteExecs.Turn)
    requires !m.job.active && !m.job.pending
    ensures RemoteExecs.Pumped(m.job, X.SeenTurn(m.session, exec)) == (m.job, true)
    ensures X.JobTurn(X.Guest(m.session, m.job), m.job).w.failed == m.session.failed
  {
  }

  /** Enough quiet turns bring the loop to rest. */
  lemma {:induction false} QuietTurnsDrain(m: Machine, exec: RemoteExecs.Turn, withLifecycle: bool, hearing: bool)
      returns (script: seq<Tick>, a: Machine)
    requires Winding(m)
    ensures Looped(m, true, script, 2, withLifecycle, hearing) == (a, true)
    ensures AtRest(a) && a.session.failed == m.session.failed
    decreases Weight(m.output)
  {
    var t := QuietTick(m, exec);
    QuietTurn(m, exec, withLifecycle);
    TurnMeans(m, t, withLifecycle);
    a := Next(m, t, withLifecycle);
    hide Next, Fine, Turned, Looped, Healthy, Weight, QuietTick;
    assert t.now == 1 && t.current == 1 && t.polled && t.inputs == None by {
      QuietMeans(m, exec);
    }
    var p := LoopTurn(m, t, 2, withLifecycle, hearing);
    assert p == (if Quiescent(a) then Ends(a, true) else Goes(a, true));
    if AtRest(a) {
      script := [t];
      LoopStep(m, true, script, [], 2, withLifecycle, hearing, p);
    } else {
      var rest, b := QuietTurnsDrain(a, exec, withLifecycle, hearing);
      script := [t] + rest;
      assert script[1..] == rest;
      LoopStep(m, true, script, rest, 2, withLifecycle, hearing, p);
      a := b;
    }
  }

  lemma QuietMeans(m: Machine, exec: RemoteExecs.Turn)
    ensures var t := QuietTick(m, exec); t.now == 1 && t.current == 1 && t.polled && t.inputs == None
  {
  }

  /** From every healthy machine whose pipes have ended and whose job is gone, some teardown succeeds. */
  lemma TeardownCanSucceed(m: Machine, exec: RemoteExecs.Turn, withLifecycle: bool) returns (s: Script)
    requires Winding(m)
    ensures Terminated(m, s, withLifecycle).1 == if withLifecycle && m.session.failed then 2 else 1
  {
    var first, a := QuietTurnsDrain(m, exec, withLifecycle, withLifecycle);
    s := Script(1, true, 2, first, true, 2, [], Nothing, true, true);
    LoopEnds(a, true, [], 2, withLifecycle, false);
    assert m.(job := RemoteExecs.Cancelled(m.job, 3, true).0) == m;
    hide Looped, FullyDrained;
  }
}
