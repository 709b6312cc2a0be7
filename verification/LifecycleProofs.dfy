/** What holds in every run of the lifecycle session, whatever the host sends. */
module LifecycleProofs {
  import opened Bytes
  import opened FrameReaders
  import opened Lifecycles
  import opened LifecycleMoves

  // ----- Guest frames are numbered once each

  ghost predicate Numbered(w: World) {
    && w.s.nextSequence == |w.sent| + 1
    && (forall i | 0 <= i < |w.sent| :: w.sent[i].sequence == i + 1)
    && (forall i | 0 <= i < |w.sent| :: w.sent[i].body.Boundary? ==> w.sent[i].body.ack.lastGuestWire == i + 1)
  }

  lemma NumberedKept(w: World, v: World)
    requires Numbered(w) && Moves(w, v)
    ensures Numbered(v)
  {
    if v.sent != w.sent {
      assert forall i | 0 <= i < |w.sent| :: v.sent[i] == v.sent[..|w.sent|][i];
    }
  }

  // ----- Host frames are accepted in order

  ghost predicate Ordered(w: World) {
    var k, a := w.s.link, w.accepted;
    && (forall i, j | 0 <= i < j < |a| :: a[i].wire < a[j].wire)
    && (forall i | 0 <= i < |a| :: a[i].wire <= k.lastHostWire)
    && (forall i | 0 <= i < |a| :: (a[i].kind == HELLO <==> i == 0) && (a[i].kind == KEY_ACK <==> i == 1))
    && (|a| >= 1 ==> a[0].wire == 1)
    && (|a| == 1 ==> k.lastHostWire == 1)
    && (|a| >= 2 ==> a[1].wire == 2)
    && (|a| == 0 <==> k.lastHelloId == 0)
    && (|a| >= 2 <==> k.keyAckWire != 0)
    && (w.s.life.state != New ==> k.keyAckWire != 0)
  }

  lemma OrderedKept(w: World, v: World)
    requires Ordered(w) && Attached(w) && !w.failed && Moves(w, v)
    ensures Ordered(v) && Attached(v)
  {
    if Admits(w, v) {
      assert forall i | 0 <= i < |w.accepted| :: v.accepted[i] == v.accepted[..|w.accepted|][i];
    }
  }

  // ----- Epochs, nonces and boundaries

  ghost predicate Distinct<T(!new)>(s: seq<T>) {
    forall i, j | 0 <= i < j < |s| :: s[i] != s[j]
  }

  /** The acknowledgement was really issued. */
  ghost predicate Issued(w: World, ack: Ack) {
    exists i | 0 <= i < |w.sent| :: w.sent[i].body == Boundary(ack)
  }

  /** Every reconnect used an issued acknowledgement, and no two of them the same one. */
  ghost predicate Authorised(w: World) {
    var a := w.accepted;
    && (forall i | 0 <= i < |a| && a[i].kind == RECONNECT ::
          a[i].authority.Some? && Issued(w, a[i].authority.value) && a[i].authority.value.id in w.s.gate.ids)
    && (forall i, j | 0 <= i < j < |a| && a[i].kind == RECONNECT && a[j].kind == RECONNECT ::
          a[i].authority.value.id != a[j].authority.value.id)
    && (!w.s.poisoned ==>
          forall i | 0 <= i < |a| && a[i].kind == RECONNECT ::
            a[i].epoch == a[i].authority.value.epoch && a[i].boundary == Some(a[i].authority.value.id))
  }

  /** The unused acknowledgement, if any, is the one that opened the current epoch. */
  ghost predicate Pending(w: World) {
    var g := w.s.gate;
    g.digest.Some? ==>
      && Issued(w, g.digest.value) && g.digest.value.id in g.ids && w.s.link.lastHelloId != 0
      && (!w.s.poisoned ==> g.digest.value.epoch == g.epoch && g.id == Some(g.digest.value.id))
      && forall i | 0 <= i < |w.accepted| && w.accepted[i].kind == RECONNECT ::
           w.accepted[i].authority.Some? && w.accepted[i].authority.value.id != g.digest.value.id
  }

  ghost predicate Counted(w: World) {
    var s := w.s;
    && Distinct(s.gate.ids) && |s.gate.ids| <= CONNECTION_MAX
    && Distinct(s.ledger.nonces) && |s.ledger.nonces| <= CONNECTION_MAX
    && (if s.link.lastHelloId == 0 then s.gate.epoch == 0 && s.gate.ids == [] && s.ledger.nonces == []
        else
          && s.gate.epoch >= 1 + |s.gate.ids| && (!s.poisoned ==> s.gate.epoch == 1 + |s.gate.ids|)
          && |s.ledger.nonces| + (if s.link.hasHello then 0 else 1) <= s.gate.epoch)
  }

  lemma CountedKept(w: World, v: World)
    requires Counted(w) && Attached(w) && !w.failed && Moves(w, v)
    requires w.s.life.state != New ==> w.s.link.keyAckWire != 0
    ensures Counted(v)
  {
  }

  lemma IssuedKept(w: World, v: World, ack: Ack)
    requires Issued(w, ack) && Sends(w, v)
    ensures Issued(v, ack)
  {
    var i :| 0 <= i < |w.sent| && w.sent[i].body == Boundary(ack);
    if v.sent != w.sent {
      assert v.sent[i] == v.sent[..|w.sent|][i];
    }
  }

  /** Every authority that was spent stays issued. */
  lemma AuthoritiesKept(w: World, v: World)
    requires Authorised(w) && Pending(w) && Moves(w, v)
    ensures forall i | 0 <= i < |v.accepted| && v.accepted[i].kind == RECONNECT ::
              v.accepted[i].authority.Some? && Issued(v, v.accepted[i].authority.value)
              && v.accepted[i].authority.value.id in v.s.gate.ids
  {
    var a, b := w.accepted, v.accepted;
    forall i | 0 <= i < |a| && a[i].kind == RECONNECT
      ensures Issued(v, a[i].authority.value)
    {
      IssuedKept(w, v, a[i].authority.value);
    }
    if Admits(w, v) {
      assert forall i | 0 <= i < |a| :: b[i] == b[..|a|][i];
      if b[|a|].kind == RECONNECT {
        IssuedKept(w, v, b[|a|].authority.value);
      }
    }
  }

  /** No acknowledgement is spent twice. */
  lemma AuthoritiesDiffer(w: World, v: World)
    requires Authorised(w) && Pending(w) && Moves(w, v)
    ensures forall i | 0 <= i < |v.accepted| && v.accepted[i].kind == RECONNECT :: v.accepted[i].authority.Some?
    ensures forall i, j | 0 <= i < j < |v.accepted| && v.accepted[i].kind == RECONNECT &&
            v.accepted[j].kind == RECONNECT ::
              v.accepted[i].authority.value.id != v.accepted[j].authority.value.id
  {
    if Admits(w, v) {
      assert forall i | 0 <= i < |w.accepted| :: v.accepted[i] == v.accepted[..|w.accepted|][i];
    }
  }

  lemma AuthorisedKept(w: World, v: World)
    requires Authorised(w) && Pending(w) && Moves(w, v)
    ensures Authorised(v)
  {
    AuthoritiesKept(w, v);
    AuthoritiesDiffer(w, v);
    if Admits(w, v) {
      assert forall i | 0 <= i < |w.accepted| :: v.accepted[i] == v.accepted[..|w.accepted|][i];
    }
  }

  lemma PendingKept(w: World, v: World)
    requires Pending(w) && Authorised(w) && Ordered(w) && Attached(w) && Moves(w, v)
    ensures Pending(v)
  {
    if v.s.gate.digest == w.s.gate.digest && v.s.gate.digest.Some? {
      IssuedKept(w, v, w.s.gate.digest.value);
    }
    if Admits(w, v) {
      assert forall i | 0 <= i < |w.accepted| :: v.accepted[i] == v.accepted[..|w.accepted|][i];
    }
  }

  // ----- Request ids

  /** The kinds that use up a request id; a STOP may be retried under its own id. */
  predicate Once(kind: Kind) {
    kind != KEY_ACK && kind != STOP_RETRY
  }

  ghost predicate LateTaken(w: World) {
    exists i | 0 <= i < |w.accepted| :: w.accepted[i].kind == LATE_STOP
  }

  ghost predicate UsedOnce(a: seq<Accepted>, l: Ledger, stopId: nat) {
    && (forall i | 0 <= i < |a| && Once(a[i].kind) :: a[i].id != 0 && RequestSeen(l, a[i].id))
    && (forall i, j | 0 <= i < j < |a| && Once(a[i].kind) && Once(a[j].kind) :: a[i].id != a[j].id)
    && (forall i | 0 <= i < |a| && a[i].kind == EXEC :: a[i].id <= l.lastExecId)
    && (forall i, j | 0 <= i < j < |a| && a[i].kind == EXEC && a[j].kind == EXEC :: a[i].id < a[j].id)
    && (forall i | 0 <= i < |a| && (a[i].kind == STOP || a[i].kind == STOP_RETRY) :: a[i].id == stopId && stopId != 0)
  }

  lemma SeenStays(w: World, v: World)
    requires Moves(w, v)
    ensures forall id | RequestSeen(w.s.ledger, id) :: RequestSeen(v.s.ledger, id)
    ensures w.s.ledger.lastExecId <= v.s.ledger.lastExecId
    ensures w.s.life.stopId != 0 ==> v.s.life.stopId == w.s.life.stopId
    ensures v.accepted == w.accepted || (Admits(w, v) && v.accepted == w.accepted + [v.accepted[|w.accepted|]])
  {
    if Admits(w, v) {
      assert v.accepted == v.accepted[..|w.accepted|] + [v.accepted[|w.accepted|]];
    }
  }

  /** What a new entry brings along: a used-once id is new, and counts as seen from now on. */
  ghost predicate NewEntry(x: Accepted, l: Ledger, m: Ledger, stopId: nat) {
    && (Once(x.kind) ==> x.id != 0 && !RequestSeen(l, x.id) && RequestSeen(m, x.id))
    && (x.kind == EXEC ==> l.lastExecId < x.id <= m.lastExecId)
    && (x.kind == STOP || x.kind == STOP_RETRY ==> x.id == stopId != 0)
  }

  lemma AdmissionIsNewEntry(w: World, v: World)
    requires Admits(w, v)
    ensures NewEntry(v.accepted[|w.accepted|], w.s.ledger, v.s.ledger, v.s.life.stopId)
  {
  }

  lemma UsedOnceGrows(a: seq<Accepted>, x: Accepted, l: Ledger, m: Ledger, stopId: nat, stopId': nat)
    requires UsedOnce(a, l, stopId) && NewEntry(x, l, m, stopId')
    requires forall id | RequestSeen(l, id) :: RequestSeen(m, id)
    requires l.lastExecId <= m.lastExecId && (stopId != 0 ==> stopId' == stopId)
    ensures UsedOnce(a + [x], m, stopId')
  {
  }

  lemma UsedOnceKept(w: World, v: World)
    requires UsedOnce(w.accepted, w.s.ledger, w.s.life.stopId) && Moves(w, v)
    ensures UsedOnce(v.accepted, v.s.ledger, v.s.life.stopId)
  {
    SeenStays(w, v);
    if Admits(w, v) {
      AdmissionIsNewEntry(w, v);
      UsedOnceGrows(w.accepted, v.accepted[|w.accepted|], w.s.ledger, v.s.ledger, w.s.life.stopId, v.s.life.stopId);
    }
  }

  // ----- STOP and the terminal cause

  /** How the life cycle's fields depend on each other. */
  ghost predicate Lived(w: World) {
    var l := w.s.life;
    && l.stopDelivered == (if l.stopId != 0 then 1 else 0)
    && (l.stopId != 0 ==> l.state == Stopping || l.state == Terminal)
    && (l.state == Stopping ==> l.stopId != 0)
    && (l.frozen ==> l.stopId == 0 && w.result.Some? && (l.state == Ready || l.state == Terminal))
    && (w.result.Some? && l.state == Ready ==> l.frozen)
    && (w.result.Some? ==> l.state != New)
    && (l.state == Terminal ==> w.result == Some(l.terminal) && (l.frozen || l.stopId != 0))
    && (l.frozen ==> w.result == Some(l.terminal))
  }

  lemma LivedKept(w: World, v: World)
    requires Lived(w) && Moves(w, v)
    ensures Lived(v)
  {
  }

  /** At most one late STOP, and only on the connection that was open at the natural exit. */
  ghost predicate LateOnce(w: World) {
    var a, l := w.accepted, w.s.life;
    && (l.lateStopAllowed ==> l.frozen && !LateTaken(w) && w.s.link.hasHello && w.s.gate.epoch == w.frozenEpoch)
    && (LateTaken(w) ==> l.frozen)
    && (forall i | 0 <= i < |a| && a[i].kind == LATE_STOP :: a[i].epoch == w.frozenEpoch)
    && (forall i, j | 0 <= i < j < |a| :: !(a[i].kind == LATE_STOP && a[j].kind == LATE_STOP))
    && |w.s.ledger.requests| == |w.s.ledger.nonces| + (if l.stopId != 0 || LateTaken(w) then 1 else 0)
  }

  lemma LateOnceKept(w: World, v: World)
    requires LateOnce(w) && Lived(w) && Attached(w) && Moves(w, v)
    requires w.s.life.state != New ==> w.s.link.lastHelloId != 0
    ensures LateOnce(v)
  {
    var n := |w.accepted|;
    if Admits(w, v) {
      assert forall i | 0 <= i < n :: v.accepted[i] == v.accepted[..n][i];
      assert v.accepted[n].kind == LATE_STOP ==> LateTaken(v);
      assert LateTaken(w) ==> LateTaken(v);
    }
  }

  /** Whatever reports the terminal state reports the supervisor's cause and the committed STOP. */
  ghost predicate ReportsAgree(w: World) {
    forall i | 0 <= i < |w.sent| :: AgreesWith(w, w.sent[i].body)
  }

  ghost predicate AgreesWith(w: World, body: Body) {
    var wanted := Reported(Terminal, w.s.life.stopId, w.result);
    match body
    case Snapshot(report, _) => report.state == Terminal ==> report == wanted && w.s.life.state == Terminal
    case TerminalNotice(report) => report == wanted && w.s.life.state == Terminal
    case Boundary(ack) => ack.report.state == Terminal ==> ack.report == wanted && w.s.life.state == Terminal
    case _ => true
  }

  lemma ReportsAgreeKept(w: World, v: World)
    requires ReportsAgree(w) && Lived(w) && Moves(w, v)
    ensures ReportsAgree(v)
  {
    LivedKept(w, v);
    assert w.s.life.state == Terminal ==>
             v.s.life.state == Terminal && v.s.life.stopId == w.s.life.stopId && v.result == w.result;
    forall i | 0 <= i < |v.sent|
      ensures AgreesWith(v, v.sent[i].body)
    {
      if i < |w.sent| {
        assert v.sent[i] == v.sent[..|w.sent|][i];
        assert AgreesWith(w, w.sent[i].body);
      }
    }
  }

  // ----- Every reachable world

  ghost predicate Invariant(w: World) {
    && Numbered(w) && Ordered(w) && Attached(w) && Counted(w) && Authorised(w) && Pending(w)
    && UsedOnce(w.accepted, w.s.ledger, w.s.life.stopId) && Lived(w) && LateOnce(w) && ReportsAgree(w)
  }

  lemma MoveKeeps(w: World, v: World)
    requires Invariant(w) && !w.failed && Moves(w, v)
    ensures Invariant(v)
  {
    NumberedKept(w, v);
    OrderedKept(w, v);
    CountedKept(w, v);
    AuthorisedKept(w, v);
    PendingKept(w, v);
    UsedOnceKept(w, v);
    LivedKept(w, v);
    LateOnceKept(w, v);
    ReportsAgreeKept(w, v);
  }

  lemma StepKeeps(w: World, e: Event)
    requires Invariant(w)
    ensures Invariant(Step(w, e))
  {
    if Enabled(w, e) {
      StepMoves(w, e);
      MoveKeeps(w, Step(w, e));
    }
  }

  lemma {:induction false} RunKeeps(w: World, events: seq<Event>)
    requires Invariant(w)
    ensures Invariant(Run(w, events))
    decreases events
  {
    if events != [] {
      StepKeeps(w, events[0]);
      RunKeeps(Step(w, events[0]), events[1..]);
    }
  }

  lemma Reachable(binding: Binding, events: seq<Event>)
    ensures Invariant(Run(Start(binding), events))
  {
    RunKeeps(Start(binding), events);
  }

  // ----- The theorems

  /**
   Over every reconnect history: boundary identifiers and nonces never repeat and stay within
   sixteen, no connection is opened without an epoch of its own, and the epoch counts the
   boundaries exactly while the session is not poisoned.
   */
  lemma EpochDiscipline(binding: Binding, events: seq<Event>)
    ensures var s := Run(Start(binding), events).s;
            && Distinct(s.gate.ids) && Distinct(s.ledger.nonces)
            && |s.ledger.nonces| <= CONNECTION_MAX && |s.ledger.nonces| <= s.gate.epoch
            && (s.link.lastHelloId != 0 ==> s.gate.epoch >= 1 + |s.gate.ids|)
            && (s.link.lastHelloId != 0 && !s.poisoned ==> s.gate.epoch == 1 + |s.gate.ids|)
  {
    Reachable(binding, events);
  }

  /**
   A reconnect spends one issued acknowledgement, which no other reconnect ever spends, and names
   its epoch and its identifier as long as the session is not poisoned.
   */
  lemma ReconnectAuthority(binding: Binding, events: seq<Event>, i: nat)
    requires var w := Run(Start(binding), events); i < |w.accepted| && w.accepted[i].kind == RECONNECT
    ensures var w := Run(Start(binding), events);
            && w.accepted[i].authority.Some? && Issued(w, w.accepted[i].authority.value)
            && (!w.s.poisoned ==>
                  && w.accepted[i].authority.value.epoch == w.accepted[i].epoch
                  && w.accepted[i].boundary == Some(w.accepted[i].authority.value.id))
            && forall j | 0 <= j < |w.accepted| && j != i && w.accepted[j].kind == RECONNECT ::
                 w.accepted[j].authority != w.accepted[i].authority
  {
    Reachable(binding, events);
  }

  /** The turn of the pump that finds the connection closed by the peer. */
  predicate ClosesTurn(w: World, e: Event) {
    e.PumpTurn? && Called(w.s.reader, e.input.polls).1 == PeerClosed
    && BeforeClose(w.s.reader, e.input.polls).connected
  }

  /**
   The exact condition under which a peer boundary keeps the epoch equal to the boundary
   count: a slot and a fresh identifier are left.  Otherwise the count stays behind, the
   session is poisoned, and the pump still reports success.
   */
  lemma BoundaryKeepsCountExactly(binding: Binding, events: seq<Event>, e: Event)
    requires var w := Run(Start(binding), events);
             Enabled(w, e) && ClosesTurn(w, e) && w.s.gate.epoch == 1 + |w.s.gate.ids|
    ensures var w := Run(Start(binding), events);
            var v := Step(w, e);
            && v.s.gate.epoch == w.s.gate.epoch + 1 && !v.failed
            && (v.s.gate.epoch == 1 + |v.s.gate.ids| <==>
                  |w.s.gate.ids| < CONNECTION_MAX && FreshId(e.input.draws, w.s.gate.ids).Some?)
            && (v.s.gate.epoch != 1 + |v.s.gate.ids| ==> v.s.poisoned)
  {
    Reachable(binding, events);
    var w := Run(Start(binding), events);
    CalledConnects(w.s.reader, e.input.polls);
    PumpLoses(w, e.input);
    BoundaryCount(w, BeforeClose(w.s.reader, e.input.polls), e.input.draws, e.input.taken);
  }

  lemma BoundaryCount(w: World, r: Reader, draws: seq<string>, taken: bool)
    requires w.s.life.state != New && w.s.link.keyAckWire != 0 && r.connected && Partial(r)
    ensures var v := ConnectionLost(w, r, draws, taken);
            var room := |w.s.gate.ids| < CONNECTION_MAX && FreshId(draws, w.s.gate.ids).Some?;
            && v.s.gate.epoch == w.s.gate.epoch + 1 && v.failed == w.failed
            && |v.s.gate.ids| == |w.s.gate.ids| + (if room then 1 else 0)
            && (!room ==> v.s.poisoned)
  {
    BoundarySends(Disconnected(w, r, true), |r.header|, |r.payload|, r.expected, draws);
  }

  /** STOP is delivered at most once, and the committed request never changes. */
  lemma StopOnce(binding: Binding, events: seq<Event>, i: nat)
    requires i < |Run(Start(binding), events).accepted|
    ensures var w := Run(Start(binding), events);
            && w.s.life.stopDelivered <= 1
            && (w.accepted[i].kind == STOP || w.accepted[i].kind == STOP_RETRY ==> w.accepted[i].id == w.s.life.stopId)
            && (w.accepted[i].kind == STOP ==>
                  w.s.life.stopDelivered == 1 && forall j | 0 <= j < |w.accepted| &&
                      j != i :: w.accepted[j].kind != STOP)
  {
    Reachable(binding, events);
  }

  lemma MovesForward(w: World, v: World)
    requires Moves(w, v) && Lived(w)
    ensures Rank(w.s.life.state) <= Rank(v.s.life.state)
    ensures w.s.life.stopId != 0 ==> v.s.life.stopId == w.s.life.stopId
    ensures w.s.life.frozen ==> v.s.life.frozen && v.s.life.stopId == 0
    ensures w.result.Some? ==> v.result == w.result
    ensures w.s.poisoned ==> v.s.poisoned
    ensures w.accepted <= v.accepted && w.sent <= v.sent
  {
  }

  /** Nothing that a step decides is ever taken back. */
  lemma StepsOnlyForward(binding: Binding, events: seq<Event>, e: Event)
    ensures var w := Run(Start(binding), events);
            var v := Step(w, e);
            && Rank(w.s.life.state) <= Rank(v.s.life.state)
            && (w.s.life.stopId != 0 ==> v.s.life.stopId == w.s.life.stopId)
            && (w.s.life.frozen ==> v.s.life.frozen && v.s.life.stopId == 0)
            && (w.result.Some? ==> v.result == w.result)
            && (w.s.poisoned ==> v.s.poisoned)
            && w.accepted <= v.accepted && w.sent <= v.sent
  {
    Reachable(binding, events);
    var w := Run(Start(binding), events);
    if Enabled(w, e) {
      StepMoves(w, e);
      MovesForward(w, Step(w, e));
    }
  }

  /** A natural exit that was frozen admits at most one STOP, and only from the connection it found open. */
  lemma LateStopIsAbsorbedOnce(binding: Binding, events: seq<Event>, i: nat)
    requires var w := Run(Start(binding), events); i < |w.accepted| && w.accepted[i].kind == LATE_STOP
    ensures var w := Run(Start(binding), events);
            && w.s.life.frozen && w.s.life.stopId == 0 && w.s.life.stopDelivered == 0
            && w.accepted[i].epoch == w.frozenEpoch && !w.s.life.lateStopAllowed
            && forall j | 0 <= j < |w.accepted| && j != i :: w.accepted[j].kind != LATE_STOP
  {
    Reachable(binding, events);
    assert LateTaken(Run(Start(binding), events));
  }

  /** The terminal report that a body carries, if it carries one. */
  function TerminalReport(body: Body): Option<Report> {
    match body
    case Snapshot(report, _) => if report.state == Terminal then Some(report) else None
    case TerminalNotice(report) => Some(report)
    case Boundary(ack) => if ack.report.state == Terminal then Some(ack.report) else None
    case _ => None
  }

  /** TERMINAL, terminal snapshots and terminal boundaries tell one and the same story. */
  lemma OneTerminalCause(binding: Binding, events: seq<Event>, i: nat)
    requires var w := Run(Start(binding), events); i < |w.sent| && TerminalReport(w.sent[i].body).Some?
    ensures var w := Run(Start(binding), events);
            && w.result.Some? && w.s.life.state == Terminal
            && TerminalReport(w.sent[i].body) == Some(Reported(Terminal, w.s.life.stopId, w.result))
            && w.result == Some(w.s.life.terminal)
  {
    Reachable(binding, events);
    assert AgreesWith(Run(Start(binding), events), Run(Start(binding), events).sent[i].body);
  }

  /** Request ids are used once, exec ids grow, and the ledger never runs out before the nonces do. */
  lemma RequestIdsUsedOnce(binding: Binding, events: seq<Event>)
    ensures var w := Run(Start(binding), events);
            var a, l := w.accepted, w.s.ledger;
            && (forall i, j | 0 <= i < j < |a| && Once(a[i].kind) && Once(a[j].kind) :: a[i].id != a[j].id)
            && (forall i, j | 0 <= i < j < |a| && a[i].kind == EXEC && a[j].kind == EXEC :: a[i].id < a[j].id)
            && |l.requests| == |l.nonces| + (if w.s.life.stopId != 0 || LateTaken(w) then 1 else 0)
            && (|l.nonces| < CONNECTION_MAX ==> |l.requests| < LEDGER_MAX)
            && (w.s.life.stopId == 0 && !LateTaken(w) ==> |l.requests| < LEDGER_MAX)
  {
    Reachable(binding, events);
  }

  /** Host frames are accepted in the order of their numbers, HELLO as 1 and KEY_ACK as 2. */
  lemma HostFramesInOrder(binding: Binding, events: seq<Event>)
    ensures var a := Run(Start(binding), events).accepted;
            && (forall i, j | 0 <= i < j < |a| :: a[i].wire < a[j].wire)
            && (|a| >= 1 ==> a[0].kind == HELLO && a[0].wire == 1)
            && (|a| >= 2 ==> a[1].kind == KEY_ACK && a[1].wire == 2)
            && (forall i | 2 <= i < |a| :: a[i].kind != HELLO && a[i].kind != KEY_ACK)
  {
    Reachable(binding, events);
  }

  /** Every attempt has a number of its own, and a boundary quotes one above all earlier ones. */
  lemma GuestFramesInOrder(binding: Binding, events: seq<Event>)
    ensures var sent := Run(Start(binding), events).sent;
            && (forall i, j | 0 <= i < j < |sent| :: sent[i].sequence < sent[j].sequence)
            && (forall i, j | 0 <= i < j < |sent| &&
               sent[j].body.Boundary? :: sent[i].sequence < sent[j].body.ack.lastGuestWire)
  {
    Reachable(binding, events);
  }

  // ----- What a poisoned session still admits

  const ONE_FRAME := [Poll(1, 0, Got([0, 0, 0, 1]), 1), Poll(1, 0, Got([0]), 1)]
  const HANG_UP := [Poll(1, 0, Got([]), 1)]
  const BYTE_THEN_HANG_UP := [Poll(1, 0, Got([0]), 1), Poll(1, 0, Got([]), 1)]

  lemma ReadingOneFrame(r: Reader)
    requires r.header == [] && r.expected == 0 && r.payload == [] && r.deadline == 0
    ensures Called(r, ONE_FRAME) == (FRESH_READER.(connected := true), Frame([0]))
  {
    var (mid, more) := Attempt(r, ONE_FRAME[0]);
    assert [] + [0 as byte, 0, 0, 1] == [0, 0, 0, 1];
    assert mid.expected == 1 && mid.payload == [] && more == More;
    assert [] + [0 as byte] == [0];
    assert Attempt(mid, ONE_FRAME[1]) == (FRESH_READER.(connected := true), Frame([0]));
    assert ONE_FRAME[1..][0] == ONE_FRAME[1];
  }

  lemma ReadingHangUp(r: Reader)
    requires r.deadline == 0 && r.header == [] && r.expected == 0 && r.payload == []
    ensures Called(r, HANG_UP) == (Cleared(r), PeerClosed) && BeforeClose(r, HANG_UP) == r
    ensures Called(r, BYTE_THEN_HANG_UP) == (FRESH_READER, PeerClosed)
    ensures BeforeClose(r, BYTE_THEN_HANG_UP).connected
  {
    var (mid, more) := Attempt(r, BYTE_THEN_HANG_UP[0]);
    assert more == More && mid.connected;
    assert BYTE_THEN_HANG_UP[1..][0] == BYTE_THEN_HANG_UP[1];
    assert Attempt(mid, BYTE_THEN_HANG_UP[1]) == (FRESH_READER, PeerClosed);
  }

  function HelloEvent(binding: Binding, nonce: string): Event {
    OpenWith(ONE_FRAME, Hello("a", binding, 1, nonce, 1, 1))
  }

  function KeyAckEvent(binding: Binding, nonce: string): Event {
    Authenticate(0, 0, ONE_FRAME, KeyAck(Envelope("a", "g", binding, 1, nonce, 2, true), 1))
  }

  const LOST := PumpTurn(Input(HANG_UP, Garbled, ["b"], true, true, false, 1))
  const REFUSED := PumpTurn(Input(BYTE_THEN_HANG_UP, Garbled, [], true, true, false, 1))

  function ReconnectEvent(binding: Binding, nonce: string, ack: Ack): Event {
    PumpTurn(Input(ONE_FRAME, Reconnect(Envelope("a", "g", binding, 3, nonce, 3, true), 2, ack, "b"), [], true, true,
                   false, 1))
  }

  /** A session that is READY on its first connection. */
  ghost predicate FirstConnection(w: World, binding: Binding, nonce: string) {
    && !w.failed && |w.accepted| == 2 && w.result == None
    && w.s.identity == Identity(binding, "a", "g", nonce) && w.s.reader == FRESH_READER.(connected := true)
    && w.s.link.hasHello && w.s.link.lastHostWire == 2 && w.s.link.keyAckWire == 2
    && w.s.ledger == Ledger([nonce], [1], 0) && w.s.life == Life(Ready, false, false, 0, 0, Exited(0))
    && w.s.gate == Gate(1, None, None, [])
  }

  /** One more event of a run. */
  lemma Then(start: World, events: seq<Event>, w: World, e: Event, v: World) returns (longer: seq<Event>)
    requires w == Run(start, events) && v == Step(w, e)
    ensures v == Run(start, longer)
  {
    longer := events + [e];
    RunLast(start, events, e);
  }

  lemma Handshake(binding: Binding, nonce: string) returns (w: World, events: seq<Event>)
    requires Hex(nonce)
    ensures FirstConnection(w, binding, nonce) && w == Run(Start(binding), events)
  {
    var w0 := Start(binding);
    ReadingOneFrame(w0.s.reader);
    var w1 := Step(w0, HelloEvent(binding, nonce));
    assert w1.s.ledger == Ledger([nonce], [1], 0);
    var w2 := Step(w1, SendBootstrap("g", true));
    assert w2.s.link.bootstrapWire == 1 && w2.s.reader == FRESH_READER.(connected := true);
    ReadingOneFrame(w2.s.reader);
    var w3 := Step(w2, KeyAckEvent(binding, nonce));
    assert |w3.accepted| == 2 && w3.s.link.keyAckWire == 2 && !w3.failed;
    w := Step(w3, Commit(true, true));
    events := Then(w0, [], w0, HelloEvent(binding, nonce), w1);
    events := Then(w0, events, w1, SendBootstrap("g", true), w2);
    events := Then(w0, events, w2, KeyAckEvent(binding, nonce), w3);
    events := Then(w0, events, w3, Commit(true, true), w);
  }

  /** Between connections, with one acknowledgement unspent. */
  ghost predicate Unspent(w: World, binding: Binding, nonce: string, epoch: nat, ack: Ack) {
    && !w.failed && |w.accepted| == 2 && w.s.identity == Identity(binding, "a", "g", nonce)
    && w.s.reader == FRESH_READER && !w.s.link.hasHello && !w.s.link.outboundFailed
    && w.s.link.lastHostWire == 2 && w.s.link.keyAckWire == 2
    && w.s.ledger == Ledger([nonce], [1], 0) && w.s.life == Life(Ready, false, false, 0, 0, Exited(0))
    && w.s.gate == Gate(epoch, Some("b"), Some(ack), ["b"]) && ack.epoch == 2
  }

  lemma FirstLoss(w: World, binding: Binding, nonce: string) returns (ack: Ack)
    requires FirstConnection(w, binding, nonce)
    ensures Unspent(Step(w, LOST), binding, nonce, 2, ack)
  {
    ReadingHangUp(w.s.reader);
    var t := Disconnected(w, w.s.reader, true);
    assert FreshId(["b"], []) == Some("b");
    ack := AckFor(t.s, "b", 0, 0, 0);
    assert [] + ["b"] == ["b"];
  }

  lemma SecondLoss(w: World, binding: Binding, nonce: string, ack: Ack)
    requires Unspent(w, binding, nonce, 2, ack)
    ensures Unspent(Step(w, REFUSED), binding, nonce, 3, ack) && Step(w, REFUSED).s.poisoned
  {
    ReadingHangUp(w.s.reader);
  }

  lemma StaleReconnect(w: World, binding: Binding, nonce: string, other: string, ack: Ack)
    requires Unspent(w, binding, nonce, 3, ack) && w.s.poisoned && Hex(other) && nonce != other
    ensures var v := Step(w, ReconnectEvent(binding, other, ack));
            && v.s.poisoned && !v.failed && v.s.gate.epoch == 2 + |v.s.gate.ids|
            && |v.accepted| == 3 && v.accepted[2] == Accepted(RECONNECT, 2, 3, 3, Some(ack), Some("b"))
  {
    ReadingOneFrame(w.s.reader);
    var t := w.(s := w.s.(reader := FRESH_READER.(connected := true)));
    var m := ReconnectEvent(binding, other, ack).input.message;
    assert ParseReconnect(t, m).Some?;
  }

  /**
   Without the `poisoned` condition the authority theorem is false: an acknowledgement that
   was not spent when a later boundary could not be acknowledged still opens a connection, in
   an epoch that it does not name, and the run goes on.
   */
  lemma PoisonedSessionAcceptsStaleAuthority(binding: Binding, nonce: string, other: string)
    requires Hex(nonce) && Hex(other) && nonce != other
    ensures exists events ::
              var w := Run(Start(binding), events);
              && w.s.poisoned && !w.failed && w.s.gate.epoch == 2 + |w.s.gate.ids|
              && |w.accepted| == 3 && w.accepted[2].kind == RECONNECT && w.accepted[2].authority.Some?
              && w.accepted[2].authority.value.epoch != w.accepted[2].epoch
  {
    var w0 := Start(binding);
    var w4, events := Handshake(binding, nonce);
    var ack := FirstLoss(w4, binding, nonce);
    var w5 := Step(w4, LOST);
    events := Then(w0, events, w4, LOST, w5);
    SecondLoss(w5, binding, nonce, ack);
    var w6 := Step(w5, REFUSED);
    events := Then(w0, events, w5, REFUSED, w6);
    StaleReconnect(w6, binding, nonce, other, ack);
    var w7 := Step(w6, ReconnectEvent(binding, other, ack));
    events := Then(w0, events, w6, ReconnectEvent(binding, other, ack), w7);
    assert w7 == Run(Start(binding), events);
  }
}
