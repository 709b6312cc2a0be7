/**
 The session as a transition relation: every step of a run sends at most one frame, and
 either admits one host message, or loses the connection, or only moves the life cycle on.
 The relation is what the invariants are proved from.
 */
module LifecycleMoves {
  import opened Bytes
  import opened FrameReaders
  import opened Lifecycles

  /** At most one new frame, under the next number; an acknowledgement quotes that number. */
  ghost predicate Sends(w: World, v: World) {
    || (v.sent == w.sent && v.s.nextSequence == w.s.nextSequence)
    || (&& |v.sent| == |w.sent| + 1 && v.sent[..|w.sent|] == w.sent
        && v.s.nextSequence == w.s.nextSequence + 1
        && v.sent[|w.sent|].sequence == w.s.nextSequence
        && Honest(v, v.sent[|w.sent|].body))
  }

  /** What a frame says about the life cycle is the life cycle of the world that sends it. */
  ghost predicate Honest(v: World, body: Body) {
    match body
    case Snapshot(report, _) => report == SnapshotReport(v.s.life, v.result)
    case TerminalNotice(report) => report == Reported(Terminal, v.s.life.stopId, v.result) && v.s.life.state == Terminal
    case Boundary(ack) => ack.report == StateReport(v.s.life) && ack.lastGuestWire + 1 == v.s.nextSequence
                          && Discardable(ack.headerBytes, ack.payloadBytes, ack.payloadExpected)
                          && v.s.gate.digest == Some(ack) && ack.lastHostWire == v.s.link.lastHostWire
    case _ => true
  }

  ghost predicate SameSupervisor(w: World, v: World) {
    v.result == w.result && v.frozenEpoch == w.frozenEpoch
  }

  ghost predicate SameExchange(k: Link, l: Link) {
    l.lastHelloId == k.lastHelloId && l.bootstrapWire == k.bootstrapWire && l.keyAckWire == k.keyAckWire
  }

  /** What admitting `x` needs and does, kind by kind. */
  ghost predicate Admission(w: World, v: World, x: Accepted) {
    var s, t := w.s, v.s;
    && (x.kind != HELLO ==> x.wire > s.link.lastHostWire) && t.link.lastHostWire == x.wire && t.link.hasHello &&
       t.reader.connected
    && t.poisoned == s.poisoned && SameSupervisor(w, v)
    && match x.kind
       case HELLO =>
         && s.link.lastHelloId == 0 && x.wire == 1 && x.epoch == 1 && x.authority == None
         && t.link.lastHelloId == x.id != 0 && t.link.bootstrapWire == s.link.bootstrapWire &&
            t.link.keyAckWire == s.link.keyAckWire
         && CanRemember(s.ledger, t.identity.hostNonce, x.id) &&
            t.ledger == Remember(s.ledger, t.identity.hostNonce, x.id)
         && t.life == s.life && t.gate == s.gate.(epoch := 1)
       case KEY_ACK =>
         && s.link.keyAckWire == 0 && s.link.bootstrapWire != 0 && s.link.hasHello && x.wire == s.link.lastHostWire + 1
         && t.link.keyAckWire == x.wire && t.link.lastHelloId == s.link.lastHelloId &&
            t.link.bootstrapWire == s.link.bootstrapWire
         && t.ledger == s.ledger && t.life == s.life && t.gate == s.gate
       case RECONNECT =>
         && PumpEnabled(s.life) && s.link.keyAckWire != 0 && SameExchange(s.link, t.link) && !s.link.hasHello
         && x.epoch == s.gate.epoch && x.boundary.Some? && x.boundary == s.gate.id && x.authority.Some? &&
            x.authority == s.gate.digest
         && CanRemember(s.ledger, t.identity.hostNonce, x.id) &&
            t.ledger == Remember(s.ledger, t.identity.hostNonce, x.id)
         && x.id != 0 && t.life == s.life && t.gate == s.gate.(id := None, digest := None)
       case EXEC =>
         && PumpEnabled(s.life) && s.link.hasHello && SameExchange(s.link, t.link) && x.id != 0 &&
            x.epoch == s.gate.epoch
         && s.life.state == Ready && s.life.stopId == 0 && !RequestSeen(s.ledger, x.id)
         && t.ledger == s.ledger.(lastExecId := x.id) && t.life == s.life && t.gate == s.gate
       case kind =>
         && PumpEnabled(s.life) && s.link.hasHello && SameExchange(s.link, t.link) && x.id != 0 &&
            x.epoch == s.gate.epoch
         && StopKind(s, x.id) == Some(kind) && t.gate == s.gate
         && t.ledger == (if kind == STOP_RETRY then s.ledger else s.ledger.(requests := s.ledger.requests + [x.id]))
         && t.life == Stopped(s.life, kind, x.id)
  }

  ghost predicate Admits(w: World, v: World) {
    && |v.accepted| == |w.accepted| + 1 && v.accepted[..|w.accepted|] == w.accepted
    && Admission(w, v, v.accepted[|w.accepted|])
  }

  /** A peer boundary that was acknowledged: a fresh identifier for the epoch it opens. */
  ghost predicate Acknowledged(w: World, v: World) {
    var g, h := w.s.gate, v.s.gate;
    && |g.ids| < CONNECTION_MAX && h.digest.Some? && h.id == Some(h.digest.value.id)
    && h.digest.value.id !in g.ids && h.ids == g.ids + [h.digest.value.id] && h.digest.value.epoch == h.epoch
    && |v.sent| == |w.sent| + 1 && v.sent[|w.sent|].body == Boundary(h.digest.value)
    && (v.s.poisoned == w.s.poisoned || v.s.poisoned)
  }

  /** A peer boundary that could not be acknowledged poisons the session, and nothing else stops it. */
  ghost predicate Refused(w: World, v: World) {
    v.s.poisoned && v.s.gate.digest == w.s.gate.digest && v.s.gate.ids == w.s.gate.ids
  }

  ghost predicate Loses(w: World, v: World) {
    var s, t := w.s, v.s;
    && v.accepted == w.accepted && SameSupervisor(w, v) && PumpEnabled(s.life) && !t.reader.connected
    && t.ledger == s.ledger && t.life == s.life.(lateStopAllowed := false)
    && t.link == s.link.(hasHello := false, outboundFailed := false)
    && (|| (t.gate.epoch == s.gate.epoch + 1 && (Acknowledged(w, v) || Refused(w, v)))
        || (t.gate == s.gate && t.poisoned == s.poisoned && !(s.reader.connected && s.link.keyAckWire != 0)))
  }

  /** Nothing is admitted; the life cycle may move on by itself. */
  ghost predicate Quiet(w: World, v: World) {
    var s, t := w.s, v.s;
    && v.accepted == w.accepted && t.ledger == s.ledger && t.gate == s.gate && (s.poisoned ==> t.poisoned)
    && t.link.hasHello == s.link.hasHello && t.link.lastHostWire == s.link.lastHostWire
    && t.link.lastHelloId == s.link.lastHelloId && t.link.keyAckWire == s.link.keyAckWire
    && (s.link.lastHelloId == 0 || s.link.bootstrapWire != 0 ==> t.link.bootstrapWire == s.link.bootstrapWire)
    && (s.link.hasHello && s.reader.connected && !v.failed ==> t.reader.connected)
    && (|| (t.life == s.life && SameSupervisor(w, v))
        || (s.life.state == New && t.life == s.life.(state := Ready) && s.link.keyAckWire != 0 && SameSupervisor(w, v))
        || (s.life.state in {Ready, Stopping} && w.result == None && v.result.Some? && MovesExit(w, v))
        || (s.life.state in {Ready, Stopping} && w.result.Some? && SameSupervisor(w, v)
            && t.life == s.life.(state := Terminal, terminal := w.result.value)))
  }

  ghost predicate MovesExit(w: World, v: World)
    requires v.result.Some?
  {
    var s, t := w.s, v.s;
    if s.life.stopId != 0 then t.life == s.life && v.frozenEpoch == w.frozenEpoch
    else
      && t.life == s.life.(frozen := true, lateStopAllowed := s.link.hasHello, terminal := v.result.value)
      && v.frozenEpoch == s.gate.epoch
  }

  ghost predicate Moves(w: World, v: World) {
    && Sends(w, v) && (Admits(w, v) || Loses(w, v) || Quiet(w, v))
    && (!v.failed ==> Partial(v.s.reader))
  }

  /** What the relation assumes of the channel: a half-read frame, and HELLO only while connected. */
  ghost predicate Attached(w: World) {
    && (w.s.link.lastHelloId == 0 ==> !w.s.link.hasHello && w.s.link.bootstrapWire == 0)
    && (w.s.link.bootstrapWire == 0 ==> w.s.link.keyAckWire == 0)
    && (!w.failed ==> Partial(w.s.reader) && (w.s.link.hasHello ==> w.s.reader.connected))
  }

  /** Between the reads of one call the connection stays up until the peer closes it. */
  lemma {:induction false} CalledConnects(r: Reader, polls: seq<Poll>)
    requires Partial(r)
    ensures var (next, outcome) := Called(r, polls);
            && (outcome.Frame? ==> next.connected)
            && (r.connected && !outcome.PeerClosed? ==> next.connected)
            && (outcome.PeerClosed? ==> !next.connected && (r.connected ==> BeforeClose(r, polls).connected)
                                        && Partial(BeforeClose(r, polls)))
            && (!outcome.Reject? ==> Partial(next))
    decreases polls
  {
    if polls != [] {
      var (next, outcome) := Attempt(r, polls[0]);
      if polls[0].answer.Got? && 0 < |polls[0].answer.data| <= Needed(r) {
        FeedMeaning(r, polls[0].answer.data, polls[0].later);
      }
      if outcome == More {
        CalledConnects(next, polls[1..]);
      }
    }
  }

  lemma SnapshotSends(w: World, carried: bool)
    ensures var v := CurrentSnapshot(w, carried);
            && Sends(w, v) && SameSupervisor(w, v) && v.accepted == w.accepted && v.s.poisoned == w.s.poisoned
            && v.s.ledger == w.s.ledger && v.s.life == w.s.life && v.s.gate == w.s.gate
            && v.s.identity == w.s.identity && v.s.reader == w.s.reader
            && v.s.link == w.s.link.(outboundFailed := v.s.link.outboundFailed)
  {
  }

  lemma OpeningAdmits(w: World, m: Message, carried: bool)
    requires ParseOpening(w, m).Some? && w.s.reader.connected && PumpEnabled(w.s.life) && !w.s.link.hasHello
    ensures var v := CurrentSnapshot(ParseOpening(w, m).value, carried);
            Admits(w, v) && Sends(w, v) && v.s.reader == w.s.reader
  {
    SnapshotSends(ParseOpening(w, m).value, carried);
  }

  lemma StopAdmits(w: World, m: Message)
    requires ParseStop(w, m).Some? && w.s.reader.connected && PumpEnabled(w.s.life) && w.s.link.hasHello
    ensures var v := ParseStop(w, m).value; Admits(w, v) && Sends(w, v) && v.s.reader == w.s.reader
  {
  }

  lemma ExecAdmits(w: World, m: Message, now: nat)
    requires ParseExec(w, m, now).Some? && w.s.reader.connected && PumpEnabled(w.s.life) && w.s.link.hasHello
    ensures var v := ParseExec(w, m, now).value; Admits(w, v) && Sends(w, v) && v.s.reader == w.s.reader
  {
  }

  lemma AdmitMoves(w: World, i: Input)
    requires w.s.reader.connected && PumpEnabled(w.s.life)
    ensures var v := Admit(w, i);
            Sends(w, v) && (Admits(w, v) || (Quiet(w, v) && v.s.life == w.s.life)) && v.s.reader == w.s.reader
  {
    if w.s.link.outboundFailed {
    } else if !w.s.link.hasHello {
      if ParseOpening(w, i.message).Some? {
        OpeningAdmits(w, i.message, i.carried);
      }
    } else if ParseStop(w, i.message).Some? {
      StopAdmits(w, i.message);
    } else if ParseExec(w, i.message, i.now).Some? {
      ExecAdmits(w, i.message, i.now);
    }
  }

  lemma BoundarySends(w: World, headerBytes: nat, payloadBytes: nat, expected: nat, draws: seq<string>)
    requires w.s.life.state != New
    ensures var v := SendBoundary(w, headerBytes, payloadBytes, expected, draws);
            && Sends(w, v) && SameSupervisor(w, v) && v.accepted == w.accepted
            && v.s.identity == w.s.identity && v.s.reader == w.s.reader && v.s.link == w.s.link
            && v.s.ledger == w.s.ledger && v.s.life == w.s.life && v.s.poisoned == w.s.poisoned
            && v.s.gate.epoch == w.s.gate.epoch
            && (Acknowledges(w.s, headerBytes, payloadBytes, expected, draws) ==> Acknowledged(w, v))
            && (!Acknowledges(w.s, headerBytes, payloadBytes, expected, draws) ==>
                  v.s.gate.digest == w.s.gate.digest && v.s.gate.ids == w.s.gate.ids)
  {
  }

  lemma LostMoves(w: World, r: Reader, draws: seq<string>, taken: bool)
    requires PumpEnabled(w.s.life) && (w.s.reader.connected ==> r.connected)
    ensures var v := ConnectionLost(w, r, draws, taken); Sends(w, v) && Loses(w, v)
  {
    var opens := r.connected && w.s.link.keyAckWire != 0;
    var t := Disconnected(w, r, opens);
    if opens {
      BoundarySends(t, |r.header|, |r.payload|, r.expected, draws);
    }
  }

  lemma {:induction false} CalledClears(r: Reader, polls: seq<Poll>)
    requires Called(r, polls).1 == PeerClosed
    ensures Called(r, polls).0 == Cleared(BeforeClose(r, polls))
    decreases polls
  {
    var (next, outcome) := Attempt(r, polls[0]);
    if outcome == More {
      CalledClears(next, polls[1..]);
    }
  }

  /** A turn that finds the peer gone does nothing but lose the connection. */
  lemma PumpLoses(w: World, i: Input)
    requires Called(w.s.reader, i.polls).1 == PeerClosed
    ensures Pump(w, i) == ConnectionLost(w, BeforeClose(w.s.reader, i.polls), i.draws, i.taken)
  {
    CalledClears(w.s.reader, i.polls);
    var before := BeforeClose(w.s.reader, i.polls);
    var t := w.(s := w.s.(reader := Called(w.s.reader, i.polls).0));
    assert Disconnected(t, before, true) == Disconnected(w, before, true);
    assert Disconnected(t, before, false) == Disconnected(w, before, false);
  }

  lemma PumpMoves(w: World, i: Input)
    requires PumpEnabled(w.s.life) && Partial(w.s.reader)
    ensures Moves(w, Pump(w, i))
  {
    CalledConnects(w.s.reader, i.polls);
    var (reader, outcome) := Called(w.s.reader, i.polls);
    if outcome.PeerClosed? {
      PumpLoses(w, i);
      LostMoves(w, BeforeClose(w.s.reader, i.polls), i.draws, i.taken);
      CalledClears(w.s.reader, i.polls);
      LostClears(w, BeforeClose(w.s.reader, i.polls), i.draws, i.taken);
    } else if outcome.Frame? {
      FrameMoves(w, reader, i);
    } else {
      StallMoves(w, reader);
    }
  }

  lemma LostClears(w: World, r: Reader, draws: seq<string>, taken: bool)
    ensures ConnectionLost(w, r, draws, taken).s.reader == Cleared(r)
  {
  }

  lemma StallMoves(w: World, reader: Reader)
    requires w.s.reader.connected ==> reader.connected
    ensures var t := w.(s := w.s.(reader := reader));
            && Sends(w, t) && Quiet(w, t) && Sends(w, Poison(t)) && Quiet(w, Poison(t))
  {
  }

  lemma FrameMoves(w: World, reader: Reader, i: Input)
    requires PumpEnabled(w.s.life) && Partial(reader) && reader.connected
    ensures Moves(w, Admit(w.(s := w.s.(reader := reader)), i))
  {
    var t := w.(s := w.s.(reader := reader));
    AdmitMoves(t, i);
    var v := Admit(t, i);
    ReaderIsFree(w, t, v);
  }

  /** Consuming bytes beforehand does not change what a step does to the rest. */
  lemma ReaderIsFree(w: World, t: World, v: World)
    requires t == w.(s := w.s.(reader := t.s.reader)) && t.s.reader.connected && v.s.reader == t.s.reader
    requires Sends(t, v) && (Admits(t, v) || Quiet(t, v))
    ensures Sends(w, v) && (Admits(w, v) || Quiet(w, v))
  {
  }

  lemma HelloMoves(w: World, m: Message)
    requires ParseHello(w, m).Some? && w.s.reader.connected
    ensures var v := ParseHello(w, m).value; Admits(w, v) && Sends(w, v) && v.s.reader == w.s.reader
  {
  }

  lemma OpenMoves(w: World, polls: seq<Poll>, m: Message)
    requires Partial(w.s.reader) && w.s.link.lastHelloId == 0 && !w.s.link.hasHello
    ensures Moves(w, Open(w, polls, m))
  {
    CalledConnects(w.s.reader, polls);
    var t := w.(s := w.s.(reader := Called(w.s.reader, polls).0));
    if ParseHello(t, m).Some? && t.s.reader.connected {
      HelloMoves(t, m);
      assert Admits(w, ParseHello(t, m).value);
    }
  }

  lemma KeyAckMoves(w: World, m: Message)
    requires ParseKeyAck(w, m).Some? && w.s.reader.connected && w.s.link.bootstrapWire != 0 && w.s.link.keyAckWire == 0
    ensures var v := ParseKeyAck(w, m).value; Admits(w, v) && Sends(w, v) && v.s.reader == w.s.reader
  {
  }

  lemma KeyAnsweredMoves(w: World, reader: Reader, outcome: Outcome, m: Message)
    requires w.s.link.bootstrapWire != 0 && w.s.link.keyAckWire == 0
    requires outcome.Frame? ==> reader.connected
    requires w.s.reader.connected && !outcome.PeerClosed? ==> reader.connected
    requires outcome != PeerClosed && outcome != Reject ==> Partial(reader)
    ensures Moves(w, KeyAnswered(w.(s := w.s.(reader := reader)), outcome, m))
  {
    var t := w.(s := w.s.(reader := reader));
    if outcome.Frame? && ParseKeyAck(t, m).Some? {
      KeyAckMoves(t, m);
      assert Admits(w, ParseKeyAck(t, m).value);
    }
  }

  lemma AuthenticatedMoves(w: World, sentAt: nat, now: nat, polls: seq<Poll>, m: Message)
    requires Partial(w.s.reader) && w.s.link.bootstrapWire != 0 && w.s.link.keyAckWire == 0
    ensures Moves(w, Authenticated(w, sentAt, now, polls, m))
  {
    CalledConnects(w.s.reader, polls);
    var (reader, outcome) := Called(w.s.reader, polls);
    KeyAnsweredMoves(w, reader, outcome, m);
  }

  /** The supervisor's own turns of the life cycle. */
  lemma CommitMoves(w: World, e: Event)
    requires Attached(w) && Enabled(w, e) && e.Commit?
    ensures Moves(w, Step(w, e))
  {
  }

  lemma ExitMoves(w: World, e: Event)
    requires Attached(w) && Enabled(w, e) && (e.MainExits? || e.Finish?)
    ensures Moves(w, Step(w, e))
  {
  }

  /** Every step of every run is a move. */
  lemma StepMoves(w: World, e: Event)
    requires Attached(w) && Enabled(w, e)
    ensures Moves(w, Step(w, e))
  {
    match e
    case OpenWith(polls, m) => OpenMoves(w, polls, m);
    case Authenticate(sentAt, now, polls, m) => AuthenticatedMoves(w, sentAt, now, polls, m);
    case PumpTurn(input) => PumpMoves(w, input);
    case Commit(_, _) => CommitMoves(w, e);
    case MainExits(_) => ExitMoves(w, e);
    case Finish(_) => ExitMoves(w, e);
    case _ =>
  }
}
