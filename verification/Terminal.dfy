/** The end of guest/stage1/init.c's supervisor: the teardown, the gate, and the session's terminal state. */
module Terminals {
  import opened Bytes
  import M = MainOutputs
  import P = OutputPumps
  import T = Teardowns
  import L = Lifecycles
  import R = TeardownRuns

  /** The verdict of the teardown, and then whether the console took all of it and the supervisor's markers. */
  ghost function Result(m: T.Machine, script: T.Script, withLifecycle: bool, verified: bool, marker: seq<byte>,
                        report: seq<byte>, counts: seq<int>, sinkValid: bool): int
  {
    var (t, verdict) := T.Terminated(m, script, withLifecycle);
    var end := T.Reported(t.output, marker, report, counts).console;
    if verdict == 2 then -2
    else if verdict == 1 && verified && sinkValid && end.Usable() && end.queued == [] then 1
    else -1
  }

  /** A line of the supervisor's own, not one of the buffers. */
  ghost predicate Apart(supervisor: T.Supervisor, line: array<byte>)
    reads supervisor.output, supervisor.output.pump, supervisor.session
  {
    && line != supervisor.output.queue.bytes && line != supervisor.output.pump.stream0.bytes
    && line != supervisor.output.pump.stream1.bytes
    && line != supervisor.session.reader.header && line != supervisor.session.reader.payload
  }

  /** The teardown and the gate; one only if nothing is left undelivered. */
  method TearDown(supervisor: T.Supervisor, script: T.Script, withLifecycle: bool, verified: bool,
                  marker: array<byte>, report: array<byte>, counts: seq<int>, sinkValid: bool) returns (code: int)
    requires supervisor.Valid() && M.Conserved(supervisor.output.View())
    requires Apart(supervisor, marker) && Apart(supervisor, report)
    modifies supervisor, supervisor.job, supervisor.output, supervisor.output.queue, supervisor.output.queue.bytes,
             supervisor.output.pump, supervisor.output.pump.stream0, supervisor.output.pump.stream0.bytes,
             supervisor.output.pump.stream1, supervisor.output.pump.stream1.bytes, supervisor.session,
             supervisor.session.reader, supervisor.session.reader.header, supervisor.session.reader.payload
    ensures supervisor.Valid() && code in {1, -1, -2}
    ensures supervisor.session.View() == T.Terminated(old(supervisor.View()), script, withLifecycle).0.session
    ensures supervisor.job.View() == T.Terminated(old(supervisor.View()), script, withLifecycle).0.job
    ensures code == 1 ==>
              && M.Delivered(supervisor.output.View()) && P.Drained(supervisor.output.pump.View())
              && supervisor.childrenDone && !supervisor.job.active && !supervisor.job.pending
    ensures code == -2 ==> withLifecycle && supervisor.session.failed
    ensures code == Result(old(supervisor.View()), script, withLifecycle, verified, old(marker[..]), old(report[..]),
                      counts, sinkValid)
  {
    hide T.Terminated, T.Reported;
    ghost var start := supervisor.View();
    var n := supervisor.TerminateAndReap(script, withLifecycle);
    T.VerdictMeans(start, script, withLifecycle);
    if n == 0 {
      return -1;
    }
    if n == 2 {
      return -2;
    }
    ghost var first, second := marker[..], report[..];
    var terminal := supervisor.Conclude(n, verified, marker, report, counts, sinkValid);
    if !terminal {
      return -1;
    }
    T.CleanEnd(start, script, withLifecycle, first, second, counts);
    return 1;
  }

  /**
   One for a session that became terminal, -2 if only the lifecycle failed, -1 otherwise.
   The terminal state and its notice come exactly with the result one, and then nothing is
   left undelivered; otherwise the session is as the teardown has left it.
   */
  method Terminate(supervisor: T.Supervisor, script: T.Script, withLifecycle: bool, verified: bool,
                   marker: array<byte>, report: array<byte>, counts: seq<int>, sinkValid: bool, carried: bool)
                       returns (code: int)
    requires supervisor.Valid() && supervisor.session.result.Some? && M.Conserved(supervisor.output.View())
    requires Apart(supervisor, marker) && Apart(supervisor, report)
    modifies supervisor, supervisor.job, supervisor.output, supervisor.output.queue, supervisor.output.queue.bytes,
             supervisor.output.pump, supervisor.output.pump.stream0, supervisor.output.pump.stream0.bytes,
             supervisor.output.pump.stream1, supervisor.output.pump.stream1.bytes, supervisor.session,
             supervisor.session.reader, supervisor.session.reader.header, supervisor.session.reader.payload
    ensures supervisor.Valid() && code in {1, -1, -2}
    ensures var left := T.Terminated(old(supervisor.View()), script, withLifecycle).0.session;
            left.result.Some? && supervisor.session.View() == if code == 1 then L.Finished(left, carried) else left
    ensures code == 1 ==>
              && M.Delivered(supervisor.output.View()) && P.Drained(supervisor.output.pump.View())
              && supervisor.childrenDone && !supervisor.job.active && !supervisor.job.pending
    ensures code == -2 ==> withLifecycle && supervisor.session.failed
    ensures code == Result(old(supervisor.View()), script, withLifecycle, verified, old(marker[..]), old(report[..]),
                      counts, sinkValid)
  {
    hide T.Terminated, T.Reported, L.Finished, Result, M.Conserved, M.Delivered, P.Drained;
    R.TeardownKeepsResult(supervisor.View(), script, withLifecycle);
    code := TearDown(supervisor, script, withLifecycle, verified, marker, report, counts, sinkValid);
    if code == 1 {
      supervisor.session.Finish(carried);
    }
  }
}
