/** To the session and the exec job of guest/stage1/init.c, a teardown is a stretch of their joint run. */
module TeardownRuns {
  import opened Bytes
  import opened Teardowns
  import F = FrameReaders
  import L = Lifecycles
  import Moves = LifecycleMoves
  import RemoteExecs
  import S = LifecycleSessions
  import X = ExecSessions

  function Guests(m: Machine): X.Guest {
    X.Guest(m.session, m.job)
  }

  /** From `g` to `h` session and job go through some joint run. */
  ghost predicate Leads(g: X.Guest, h: X.Guest) {
    X.Linked(g) && X.Linked(h) && exists events :: X.GuestRun(g, events) == h
  }

  lemma LeadsNowhere(g: X.Guest)
    requires X.Linked(g)
    ensures Leads(g, g)
  {
    assert X.GuestRun(g, []) == g;
  }

  lemma LeadsByStep(g: X.Guest, e: X.GuestEvent)
    requires X.Linked(g)
    ensures Leads(g, X.GuestStep(g, e))
  {
    X.StepLinks(g, e);
    assert [e][1..] == [] && X.GuestRun(X.GuestStep(g, e), []) == X.GuestStep(g, e);
    assert X.GuestRun(g, [e]) == X.GuestStep(g, e);
  }

  lemma LeadsOn(a: X.Guest, b: X.Guest, c: X.Guest)
    requires Leads(a, b) && Leads(b, c)
    ensures Leads(a, c)
  {
    var first :| X.GuestRun(a, first) == b;
    var second :| X.GuestRun(b, second) == c;
    GuestRunsInSequence(a, first, second);
  }

  lemma {:induction false} GuestRunsInSequence(g: X.Guest, a: seq<X.GuestEvent>, b: seq<X.GuestEvent>)
    ensures X.GuestRun(g, a + b) == X.GuestRun(X.GuestRun(g, a), b)
    decreases a
  {
    if a == [] {
      assert a + b == b;
    } else {
      assert (a + b)[1..] == a[1..] + b;
      GuestRunsInSequence(X.GuestStep(g, a[0]), a[1..], b);
    }
  }

  lemma NoNewFrames(g: X.Guest, k: RemoteExecs.Job)
    requires X.Linked(g) && k.queued == g.j.queued && X.Busy(k) == X.Busy(g.j)
    ensures X.JobTurn(g, k) == g.(j := k)
  {
  }

  lemma SilentStep(j: RemoteExecs.Job, e: RemoteExecs.Event)
    requires e.Cancel? || e.Reap?
    ensures var k := RemoteExecs.Step(j, e); k.queued == j.queued && X.Busy(k) == X.Busy(j)
  {
  }

  /** What the supervisor does to the job by itself shows the session nothing new. */
  lemma SilentJobStep(g: X.Guest, e: RemoteExecs.Event)
    requires X.Linked(g) && (e.Cancel? || e.Reap?)
    ensures Leads(g, g.(j := RemoteExecs.Step(g.j, e)))
  {
    hide RemoteExecs.Step;
    SilentStep(g.j, e);
    NoNewFrames(g, RemoteExecs.Step(g.j, e));
    LeadsByStep(g, X.JobStep(e));
  }

  lemma WaitedLeads(m: Machine, wait: Wait)
    requires X.Linked(Guests(m))
    ensures Leads(Guests(m), Guests(Waited(m, wait).0))
  {
    LeadsNowhere(Guests(m));
    SilentJobStep(Guests(m), RemoteExecs.Reap);
  }

  lemma WorkedLeads(m: Machine, t: RemoteExecs.Turn)
    requires X.Linked(Guests(m))
    ensures Leads(Guests(m), Guests(Worked(m, t).0))
  {
    LeadsByStep(Guests(m), X.JobStep(RemoteExecs.Pump(t)));
  }

  lemma TurnedLeads(m: Machine, t: Tick, withLifecycle: bool)
    requires X.Linked(Guests(m))
    ensures Leads(Guests(m), Guests(Turned(m, t, withLifecycle).0))
  {
    hide Worked, Serviced, Leads, X.Linked;
    var a := Waited(m, t.wait).0;
    WaitedLeads(m, t.wait);
    ServicedKeepsGuests(a, t);
    var b := Serviced(a, t).0;
    LeadsLinked(Guests(m), Guests(a));
    if withLifecycle {
      WorkedLeads(b, t.exec);
      LeadsOn(Guests(m), Guests(b), Guests(Worked(b, t.exec).0));
    }
  }

  lemma ServicedKeepsGuests(m: Machine, t: Tick)
    ensures Guests(Serviced(m, t).0) == Guests(m)
  {
  }

  lemma LeadsLinked(g: X.Guest, h: X.Guest)
    requires Leads(g, h)
    ensures X.Linked(h)
  {
  }

  lemma PumpedLeads(g: X.Guest, i: L.Input)
    requires X.Linked(g) && !g.w.failed && L.PumpEnabled(g.w.s.life)
    ensures Leads(g, Told(g.j, g.w, L.Pump(g.w, i)))
  {
    LeadsByStep(g, X.SessionStep(L.PumpTurn(i)));
    X.StepIsOwn(g.w, L.PumpTurn(i));
    assert L.Step(g.w, L.PumpTurn(i)) == L.Pump(g.w, i);
  }

  lemma {:induction false} BusyStays(w: L.World, inputs: seq<L.Input>, n: nat)
    requires w.execBusy
    ensures S.Batch(w, inputs, n).execBusy
    decreases n
  {
    hide L.Pump;
    if n > 0 && inputs != [] {
      X.PumpIsOwn(w, inputs[0]);
      BusyStays(L.Pump(w, inputs[0]), inputs[1..], n - 1);
    }
  }

  /** The job hears of an EXEC that was admitted between these two worlds. */
  function Told(j: RemoteExecs.Job, w: L.World, v: L.World): X.Guest {
    X.Guest(v, if v.execBusy && !w.execBusy then RemoteExecs.Admitted(j) else j)
  }

  /** A batch of the pump: the job is told afterwards, which comes to the same. */
  lemma {:induction false} BatchLeads(g: X.Guest, inputs: seq<L.Input>, n: nat)
    requires X.Linked(g) && !g.w.failed && L.PumpEnabled(g.w.s.life) && F.Partial(g.w.s.reader)
    ensures Leads(g, Told(g.j, g.w, S.Batch(g.w, inputs, n)))
    decreases n
  {
    hide L.Pump, X.Linked, F.Called, L.PumpEnabled, F.Partial, X.GuestRun;
    if n == 0 || inputs == [] {
      S.BatchEnds(g.w, inputs, n);
      LeadsNowhere(g);
    } else {
      var h := Told(g.j, g.w, L.Pump(g.w, inputs[0]));
      S.BatchStep(g.w, inputs, n);
      PumpedLeads(g, inputs[0]);
      if !h.w.failed && F.Called(g.w.s.reader, inputs[0].polls).1.Frame? {
        S.PumpContinues(g.w, inputs[0]);
        BatchLeads(h, inputs[1..], n - 1);
        ToldOnce(g, inputs, n);
        LeadsOn(g, h, Told(h.j, h.w, S.Batch(h.w, inputs[1..], n - 1)));
      }
    }
  }

  lemma ToldOnce(g: X.Guest, inputs: seq<L.Input>, n: nat)
    requires n > 0 && inputs != []
    ensures var h := Told(g.j, g.w, L.Pump(g.w, inputs[0]));
            var v := S.Batch(h.w, inputs[1..], n - 1);
            Told(h.j, h.w, v) == Told(g.j, g.w, v)
  {
    hide L.Pump;
    X.PumpIsOwn(g.w, inputs[0]);
    var next := L.Pump(g.w, inputs[0]);
    if next.execBusy {
      BusyStays(next, inputs[1..], n - 1);
    }
  }

  /** The job is linked to the session, and the reader of a live session is between or inside frames. */
  ghost predicate Fit(m: Machine) {
    X.Linked(Guests(m)) && (m.session.failed || F.Partial(m.session.s.reader))
  }

  lemma {:induction false} BatchStaysPartial(w: L.World, inputs: seq<L.Input>, n: nat)
    requires !w.failed && L.PumpEnabled(w.s.life) && F.Partial(w.s.reader)
    ensures var v := S.Batch(w, inputs, n); v.failed || F.Partial(v.s.reader)
    decreases n
  {
    hide L.Pump, L.PumpEnabled, F.Partial, F.Called;
    if n == 0 || inputs == [] {
      S.BatchEnds(w, inputs, n);
    } else {
      S.BatchStep(w, inputs, n);
      Moves.PumpMoves(w, inputs[0]);
      var v := L.Pump(w, inputs[0]);
      if !v.failed && F.Called(w.s.reader, inputs[0].polls).1.Frame? {
        S.PumpContinues(w, inputs[0]);
        BatchStaysPartial(v, inputs[1..], n - 1);
      }
    }
  }

  lemma HeardLeads(m: Machine, t: Tick)
    requires Fit(m)
    ensures Leads(Guests(m), Guests(Heard(m, t))) && Fit(Heard(m, t))
  {
    hide X.Linked, L.Pump, F.Partial, S.Batch;
    LeadsNowhere(Guests(m));
    if t.inputs.Some? && Hears(m.session) {
      BatchLeads(Guests(m), t.inputs.value, S.BATCH_MAX);
      BatchStaysPartial(m.session, t.inputs.value, S.BATCH_MAX);
      LeadsLinked(Guests(m), Guests(Heard(m, t)));
    }
  }

  lemma {:induction false} LoggedKeepsReader(w: L.World, n: nat)
    ensures L.Logged(w, n).s.reader == w.s.reader && L.Logged(w, n).failed == w.failed
    decreases n
  {
    if n > 0 {
      LoggedKeepsReader(L.Log(w, L.ExecFrame), n - 1);
    }
  }

  lemma WorkedKeepsReader(m: Machine, t: RemoteExecs.Turn)
    ensures var v := Worked(m, t).0.session; v.s.reader == m.session.s.reader && v.failed == m.session.failed
  {
    hide RemoteExecs.Pumped;
    var k := RemoteExecs.Pumped(m.job, X.SeenTurn(m.session, t)).0;
    LoggedKeepsReader(m.session, if |k.queued| > |m.job.queued| then |k.queued| - |m.job.queued| else 0);
  }

  lemma TurnedStaysFit(m: Machine, t: Tick, withLifecycle: bool)
    requires Fit(m)
    ensures Fit(Turned(m, t, withLifecycle).0)
  {
    hide Worked, Serviced, Leads, X.Linked;
    var a := Waited(m, t.wait).0;
    var b := Serviced(a, t).0;
    TurnedLeads(m, t, withLifecycle);
    LeadsLinked(Guests(m), Guests(Turned(m, t, withLifecycle).0));
    ServicedKeepsGuests(a, t);
    assert Guests(b).w == m.session;
    WorkedKeepsReader(b, t.exec);
  }

  lemma LoopTurnLeads(m: Machine, t: Tick, deadline: nat, withLifecycle: bool, hearing: bool)
    requires Fit(m)
    ensures var n := LoopTurn(m, t, deadline, withLifecycle, hearing).m; Leads(Guests(m), Guests(n)) && Fit(n)
  {
    hide Turned, Heard, Leads, X.Linked, Quiescent;
    var a := Turned(m, t, withLifecycle).0;
    LeadsNowhere(Guests(m));
    TurnedLeads(m, t, withLifecycle);
    TurnedStaysFit(m, t, withLifecycle);
    HeardLeads(a, t);
    LeadsOn(Guests(m), Guests(a), Guests(Heard(a, t)));
  }

  lemma {:induction false} LoopedLeads(m: Machine, ok: bool, script: seq<Tick>, deadline: nat, withLifecycle: bool,
      hearing: bool)
    requires Fit(m)
    ensures var n := Looped(m, ok, script, deadline, withLifecycle, hearing).0; Leads(Guests(m), Guests(n)) && Fit(n)
    decreases |script|
  {
    hide LoopTurn, Leads, Fit;
    FitLeads(m);
    if script != [] {
      var p := LoopTurn(m, script[0], deadline, withLifecycle, hearing);
      LoopTurnLeads(m, script[0], deadline, withLifecycle, hearing);
      if p.Goes? {
        LoopedLeads(p.m, ok && p.ok, script[1..], deadline, withLifecycle, hearing);
        LeadsOn(Guests(m), Guests(p.m),
            Guests(Looped(p.m, ok && p.ok, script[1..], deadline, withLifecycle, hearing).0));
      }
    }
  }

  lemma FitLeads(m: Machine)
    requires Fit(m)
    ensures Leads(Guests(m), Guests(m))
  {
    LeadsNowhere(Guests(m));
  }

  lemma AskedLeads(m: Machine, s: Script, withLifecycle: bool)
    requires Fit(m)
    ensures var n := Asked(m, s, withLifecycle).0; Leads(Guests(m), Guests(n)) && Fit(n)
  {
    hide Leads, X.Linked, Looped, RemoteExecs.Cancelled;
    var j := m.(job := RemoteExecs.Cancelled(m.job, 3, s.cancels).0);
    SilentJobStep(Guests(m), RemoteExecs.Cancel(s.cancels));
    LeadsLinked(Guests(m), Guests(j));
    LoopedLeads(j, true, s.first, s.deadline, withLifecycle, withLifecycle);
    LeadsOn(Guests(m), Guests(j), Guests(Asked(m, s, withLifecycle).0));
  }

  lemma ForcedLeads(m: Machine, s: Script, withLifecycle: bool)
    requires Fit(m)
    ensures Leads(Guests(m), Guests(Forced(m, s, withLifecycle).0))
  {
    hide Leads, X.Linked, Looped, Waited, Quiescent;
    var b := Looped(m, true, s.second, s.lastDeadline, withLifecycle, false).0;
    LoopedLeads(m, true, s.second, s.lastDeadline, withLifecycle, false);
    WaitedLeads(b, s.last);
    LeadsOn(Guests(m), Guests(b), Guests(Waited(b, s.last).0));
  }

  /**
   To the session and the exec job the whole teardown, with its cancellation, its pumping and its
   reaping, is one more stretch of their joint run; whatever holds over all joint runs holds of it.
   */
  lemma TeardownIsAJointRun(binding: L.Binding, events: seq<X.GuestEvent>, m: Machine, s: Script, withLifecycle: bool)
    returns (more: seq<X.GuestEvent>)
    requires Guests(m) == X.GuestRun(X.Booted(binding), events)
    ensures events <= more && Guests(Terminated(m, s, withLifecycle).0) == X.GuestRun(X.Booted(binding), more)
  {
    X.GuestRunLinks(X.Booted(binding), events);
    X.GuestRunKeeps(X.Booted(binding), events);
    AskedLeads(m, s, withLifecycle);
    var a := Asked(m, s, withLifecycle).0;
    ForcedLeads(a, s, withLifecycle);
    LeadsOn(Guests(m), Guests(a), Guests(Terminated(m, s, withLifecycle).0));
    var rest :| X.GuestRun(Guests(m), rest) == Guests(Terminated(m, s, withLifecycle).0);
    GuestRunsInSequence(X.Booted(binding), events, rest);
    more := events + rest;
  }

  // ----- The supervisor's record of the main workload

  /** The record is made, and the reader of a live session is between or inside frames. */
  ghost predicate Settled(m: Machine, result: Option<L.Cause>) {
    result.Some? && m.session.result == result && (m.session.failed || F.Partial(m.session.s.reader))
  }

  lemma {:induction false} BatchKeepsResult(w: L.World, inputs: seq<L.Input>, n: nat)
    requires !w.failed && L.PumpEnabled(w.s.life) && F.Partial(w.s.reader) && w.result.Some?
    ensures S.Batch(w, inputs, n).result == w.result
    decreases n
  {
    hide L.Pump, L.PumpEnabled, F.Partial, F.Called;
    if n == 0 || inputs == [] {
      S.BatchEnds(w, inputs, n);
    } else {
      S.BatchStep(w, inputs, n);
      Moves.PumpMoves(w, inputs[0]);
      var v := L.Pump(w, inputs[0]);
      if !v.failed && F.Called(w.s.reader, inputs[0].polls).1.Frame? {
        S.PumpContinues(w, inputs[0]);
        BatchKeepsResult(v, inputs[1..], n - 1);
      }
    }
  }

  lemma {:induction false} LoggedKeepsResult(w: L.World, n: nat)
    ensures L.Logged(w, n).result == w.result
    decreases n
  {
    if n > 0 {
      LoggedKeepsResult(L.Log(w, L.ExecFrame), n - 1);
    }
  }

  lemma TurnedSettled(m: Machine, t: Tick, withLifecycle: bool, result: Option<L.Cause>)
    requires Settled(m, result)
    ensures Settled(Turned(m, t, withLifecycle).0, result)
  {
    hide Worked, Serviced, F.Partial;
    var a := Waited(m, t.wait).0;
    var b := Serviced(a, t).0;
    ServicedKeepsGuests(a, t);
    assert Guests(b).w == m.session;
    WorkedKeepsReader(b, t.exec);
    WorkedKeepsResult(b, t.exec);
  }

  lemma WorkedKeepsResult(m: Machine, t: RemoteExecs.Turn)
    ensures Worked(m, t).0.session.result == m.session.result
  {
    hide RemoteExecs.Pumped;
    var k := RemoteExecs.Pumped(m.job, X.SeenTurn(m.session, t)).0;
    LoggedKeepsResult(m.session, if |k.queued| > |m.job.queued| then |k.queued| - |m.job.queued| else 0);
  }

  lemma HeardSettled(m: Machine, t: Tick, result: Option<L.Cause>)
    requires Settled(m, result)
    ensures Settled(Heard(m, t), result)
  {
    hide F.Partial, S.Batch;
    if t.inputs.Some? && Hears(m.session) {
      BatchKeepsResult(m.session, t.inputs.value, S.BATCH_MAX);
      BatchStaysPartial(m.session, t.inputs.value, S.BATCH_MAX);
    }
  }

  lemma LoopTurnSettled(m: Machine, t: Tick, deadline: nat, withLifecycle: bool, hearing: bool, result: Option<L.Cause>)
    requires Settled(m, result)
    ensures Settled(LoopTurn(m, t, deadline, withLifecycle, hearing).m, result)
  {
    hide Turned, Heard, Settled, Quiescent;
    TurnedSettled(m, t, withLifecycle, result);
    HeardSettled(Turned(m, t, withLifecycle).0, t, result);
  }

  lemma {:induction false} LoopedSettled(m: Machine, ok: bool, script: seq<Tick>, deadline: nat, withLifecycle: bool,
      hearing: bool,
                                         result: Option<L.Cause>)
    requires Settled(m, result)
    ensures Settled(Looped(m, ok, script, deadline, withLifecycle, hearing).0, result)
    decreases |script|
  {
    hide LoopTurn, Settled;
    if script != [] {
      var p := LoopTurn(m, script[0], deadline, withLifecycle, hearing);
      LoopTurnSettled(m, script[0], deadline, withLifecycle, hearing, result);
      if p.Goes? {
        LoopedSettled(p.m, ok && p.ok, script[1..], deadline, withLifecycle, hearing, result);
      }
    }
  }

  /** The teardown does not touch the record of how the main workload ended. */
  lemma TeardownKeepsResult(m: Machine, s: Script, withLifecycle: bool)
    requires m.session.result.Some? && (m.session.failed || F.Partial(m.session.s.reader))
    ensures Terminated(m, s, withLifecycle).0.session.result == m.session.result
  {
    hide Looped, RemoteExecs.Cancelled, F.Partial, Quiescent;
    var j := m.(job := RemoteExecs.Cancelled(m.job, 3, s.cancels).0);
    LoopedSettled(j, true, s.first, s.deadline, withLifecycle, withLifecycle, m.session.result);
    var a := Asked(m, s, withLifecycle).0;
    LoopedSettled(a, true, s.second, s.lastDeadline, withLifecycle, false, m.session.result);
  }
}
