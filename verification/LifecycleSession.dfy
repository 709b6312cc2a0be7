/**
 The session object of guest/stage1/init.c, with the fields that the program updates.
 Every method is proved equal to the function of the same step in `Lifecycles`.
 */
module LifecycleSessions {
  import opened Bytes
  import opened FrameReaders
  import opened Lifecycles
  import opened LifecycleMoves

  class LifecycleSession {
    const reader: FrameReader
    var identity: Identity
    var link: Link
    var ledger: Ledger
    var life: Life
    var gate: Gate
    var nextSequence: nat
    var poisoned: bool
    /** The supervisor's record of the main workload, and whether an exec job exists. */
    var result: Option<Cause>
    var execBusy: bool
    var execDeadline: nat
    /** What the last call reported to the supervisor. */
    var failed: bool
    ghost var accepted: seq<Accepted>
    ghost var sent: seq<Attempted>
    ghost var frozenEpoch: nat

    ghost predicate Valid()
      reads this, reader
    {
      reader.Valid()
    }

    ghost function View(): World
      reads this, reader, reader.header, reader.payload
      requires Valid()
    {
      World(Session(identity, reader.View(), link, ledger, life, gate, nextSequence, poisoned),
            accepted, sent, result, frozenEpoch, execBusy, execDeadline, failed)
    }

    constructor (binding: Binding)
      ensures Valid() && fresh(reader) && fresh(reader.header) && fresh(reader.payload)
      ensures View() == Start(binding)
    {
      reader := new FrameReader();
      identity := Identity(binding, "", "", "");
      link := Link(false, false, 0, 0, 0, 0, 0);
      ledger := Ledger([], [], 0);
      life := Life(New, false, false, 0, 0, Exited(0));
      gate := Gate(0, None, None, []);
      nextSequence, poisoned, result, execBusy := 1, false, None, false;
      accepted, sent, frozenEpoch, execDeadline, failed := [], [], 0, 0, false;
    }

    method NonceSeen(nonce: string) returns (seen: bool)
      ensures seen == (nonce in ledger.nonces)
    {
      var i := 0;
      while i < |ledger.nonces|
        invariant 0 <= i <= |ledger.nonces|
        invariant nonce !in ledger.nonces[..i]
      {
        if ledger.nonces[i] == nonce {
          return true;
        }
        i := i + 1;
      }
      return false;
    }

    method HasSeen(id: nat) returns (seen: bool)
      ensures seen == RequestSeen(ledger, id)
    {
      if id != 0 && id <= ledger.lastExecId {
        return true;
      }
      var i := 0;
      while i < |ledger.requests|
        invariant 0 <= i <= |ledger.requests|
        invariant id !in ledger.requests[..i]
      {
        if ledger.requests[i] == id {
          return true;
        }
        i := i + 1;
      }
      return false;
    }

    method RememberNonceRequest(nonce: string, id: nat) returns (ok: bool)
      modifies this`ledger
      ensures ok == CanRemember(old(ledger), nonce, id)
      ensures ledger == if ok then Remember(old(ledger), nonce, id) else old(ledger)
    {
      if |ledger.nonces| >= CONNECTION_MAX || |ledger.requests| >= LEDGER_MAX {
        return false;
      }
      var seen := NonceSeen(nonce);
      if seen {
        return false;
      }
      seen := HasSeen(id);
      if seen {
        return false;
      }
      ledger := ledger.(nonces := ledger.nonces + [nonce]);
      ledger := ledger.(requests := ledger.requests + [id]);
      return true;
    }

    /** The first connection is admitted, and the first epoch begins. */
    method TakeHello(m: Message)
      requires Valid() && m.Hello?
      modifies this`identity, this`link, this`gate, this`accepted
      ensures var w, s := old(View()), old(View()).s;
              View() == Accept(w, s.(identity := s.identity.(hostNonce := m.nonce, attempt := m.attempt),
                                     link := s.link.(hasHello := true, lastHelloId := m.requestId,
                                                     openerId := m.requestId, lastHostWire := m.wire),
                                     gate := s.gate.(epoch := 1)),
                               Accepted(HELLO, m.requestId, m.wire, 1, None, None))
    {
      identity := identity.(hostNonce := m.nonce, attempt := m.attempt);
      link := link.(lastHelloId := m.requestId, openerId := m.requestId, lastHostWire := m.wire, hasHello := true);
      gate := gate.(epoch := 1);
      accepted := accepted + [Accepted(HELLO, m.requestId, m.wire, 1, None, None)];
    }

    method ParseHello(m: Message) returns (ok: bool)
      requires Valid()
      modifies this
      ensures Valid()
      ensures var w := old(View());
              var parsed := Lifecycles.ParseHello(w, m);
              ok == parsed.Some? && View() == if ok then parsed.value else w
    {
      if !(m.Hello? && m.binding == identity.binding && m.epoch == 1 && Hex(m.nonce) && ValidId(m.requestId) &&
          m.wire == 1) {
        return false;
      }
      if link.hasHello || link.lastHelloId != 0 {
        return false;
      }
      ok := RememberNonceRequest(m.nonce, m.requestId);
      if !ok {
        return;
      }
      TakeHello(m);
    }

    /** The checks of the signed envelope, in place. */
    predicate IsSigned(e: Envelope, reconnect: bool)
      reads this
      ensures forall s: Session | s.identity == identity && s.link == link && s.gate == gate ::
                IsSigned(e, reconnect) == Signed(s, e, reconnect)
    {
      && (reconnect || (link.hasHello && e.nonce == identity.hostNonce))
      && e.attempt == identity.attempt && e.generation == identity.generation && e.binding == identity.binding
      && e.epoch == gate.epoch && ValidId(e.wire) && e.authentic && e.wire > link.lastHostWire
    }

    method ParseKeyAck(m: Message) returns (ok: bool)
      requires Valid()
      modifies this
      ensures Valid()
      ensures var w := old(View());
              var parsed := Lifecycles.ParseKeyAck(w, m);
              ok == parsed.Some? && View() == if ok then parsed.value else w
    {
      if !(m.KeyAck? && IsSigned(m.envelope, false) && m.replyTo == link.bootstrapWire) ||
         m.envelope.epoch != 1 || m.envelope.wire != link.lastHostWire + 1 {
        return false;
      }
      link := link.(lastHostWire := m.envelope.wire, keyAckWire := m.envelope.wire);
      accepted := accepted + [Accepted(KEY_ACK, 0, m.envelope.wire, 1, None, None)];
      return true;
    }

    /** The connection is the host's again, and the gate is spent. */
    method Resume(id: nat, e: Envelope, ghost x: Accepted)
      requires Valid()
      modifies this`identity, this`link, this`gate, this`accepted
      ensures var w, s := old(View()), old(View()).s;
              View() == Accept(w, s.(identity := s.identity.(hostNonce := e.nonce),
                                     link := s.link.(hasHello := true, openerId := id, lastHostWire := e.wire),
                                     gate := s.gate.(id := None, digest := None)), x)
    {
      identity := identity.(hostNonce := e.nonce);
      link := link.(openerId := id, hasHello := true, lastHostWire := e.wire);
      gate := gate.(id := None, digest := None);
      accepted := accepted + [x];
    }

    method ParseReconnect(m: Message) returns (ok: bool)
      requires Valid()
      modifies this
      ensures Valid()
      ensures var w := old(View());
              var parsed := Lifecycles.ParseReconnect(w, m);
              ok == parsed.Some? && View() == if ok then parsed.value else w
    {
      if !(m.Reconnect? && IsSigned(m.envelope, true)) {
        return false;
      }
      var seen := NonceSeen(m.envelope.nonce);
      if seen || Some(m.ack) != gate.digest || Some(m.boundaryId) != gate.id ||
         !ValidId(m.requestId) || !Hex(m.envelope.nonce) {
        return false;
      }
      ok := RememberNonceRequest(m.envelope.nonce, m.requestId);
      if !ok {
        return;
      }
      Resume(m.requestId, m.envelope,
             Accepted(RECONNECT, m.requestId, m.envelope.wire, m.envelope.epoch, Some(m.ack), Some(m.boundaryId)));
    }

    /** The three ways a STOP is taken: committed, retried, or absorbed after a natural exit. */
    method TakeStop(id: nat) returns (kind: Option<Kind>)
      requires Valid()
      modifies this`ledger, this`life
      ensures kind == StopKind(old(View()).s, id)
      ensures life == if kind.Some? then Stopped(old(life), kind.value, id) else old(life)
      ensures ledger == if kind.Some? && kind.value != STOP_RETRY
                        then old(ledger).(requests := old(ledger).requests + [id]) else old(ledger)
    {
      if life.stopId != 0 {
        if id != life.stopId || life.state != Stopping {
          return None;
        }
        return Some(STOP_RETRY);
      }
      var seen := HasSeen(id);
      if life.state == Terminal || life.frozen {
        if !life.lateStopAllowed || seen || |ledger.requests| >= LEDGER_MAX {
          return None;
        }
        life := life.(lateStopAllowed := false);
        ledger := ledger.(requests := ledger.requests + [id]);
        return Some(LATE_STOP);
      }
      if life.state != Ready || seen || |ledger.requests| >= LEDGER_MAX {
        return None;
      }
      ledger := ledger.(requests := ledger.requests + [id]);
      life := life.(stopId := id, state := Stopping, stopDelivered := life.stopDelivered + 1);
      return Some(STOP);
    }

    method ParseStop(m: Message) returns (kind: Option<Kind>)
      requires Valid()
      modifies this
      ensures Valid()
      ensures var w := old(View());
              var parsed := Lifecycles.ParseStop(w, m);
              && kind.Some? == parsed.Some? && View() == (if kind.Some? then parsed.value else w)
              && (kind.Some? ==> kind == StopKind(w.s, m.requestId))
    {
      hide StopKind, Stopped;
      if !(m.Stop? && IsSigned(m.envelope, false) && m.signal == SIGTERM && ValidId(m.requestId)) {
        return None;
      }
      kind := TakeStop(m.requestId);
      if kind.Some? {
        link := link.(lastHostWire := m.envelope.wire);
        accepted := accepted + [Accepted(kind.value, m.requestId, m.envelope.wire, gate.epoch, None, None)];
      }
    }

    /** The job is admitted, and its time runs. */
    method TakeExec(id: nat, wire: nat, deadline: nat, ghost x: Accepted)
      requires Valid()
      modifies this`ledger, this`link, this`execBusy, this`execDeadline, this`accepted
      ensures var w, s := old(View()), old(View()).s;
              var taken := s.(ledger := s.ledger.(lastExecId := id), link := s.link.(lastHostWire := wire));
              View() == Accept(w, taken, x).(execBusy := true, execDeadline := deadline)
    {
      ledger := ledger.(lastExecId := id);
      link := link.(lastHostWire := wire);
      execBusy, execDeadline, accepted := true, deadline, accepted + [x];
    }

    method ParseExec(m: Message, now: nat) returns (ok: bool)
      requires Valid()
      modifies this
      ensures Valid()
      ensures var w := old(View());
              var parsed := Lifecycles.ParseExec(w, m, now);
              ok == parsed.Some? && View() == if ok then parsed.value else w
    {
      if !(m.Exec? && IsSigned(m.envelope, false)) || life.state != Ready || life.stopId != 0 || execBusy ||
         !ValidArgv(m.argv, m.argvWidth) || !(1 <= m.timeout <= EXEC_TIMEOUT_MAX) || !ValidId(m.requestId) {
        return false;
      }
      var seen := HasSeen(m.requestId);
      if seen {
        return false;
      }
      TakeExec(m.requestId, m.envelope.wire, now + m.timeout,
               Accepted(EXEC, m.requestId, m.envelope.wire, gate.epoch, None, None));
      return true;
    }

    /** Takes the next number; the attempt is on record whatever becomes of it. */
    method Number(ghost body: Body) returns (sequence: nat)
      requires Valid()
      modifies this`nextSequence, this`sent
      ensures Valid() && View() == Log(old(View()), body) && sequence == old(nextSequence)
    {
      sequence := nextSequence;
      nextSequence := nextSequence + 1;
      sent := sent + [Attempted(sequence, body)];
    }

    /** The frames of the exec job take their numbers, and the session knows whether the job is gone. */
    method NumberFrames(n: nat, busy: bool)
      requires Valid()
      modifies this`nextSequence, this`sent, this`execBusy
      ensures Valid() && View() == Logged(old(View()), n).(execBusy := busy)
    {
      ghost var w := View();
      var left := n;
      while left > 0
        invariant Valid() && Logged(w, n) == Logged(View(), left)
      {
        var _ := Number(ExecFrame);
        left := left - 1;
      }
      execBusy := busy;
    }

    method SendControlMessage(ghost body: Body, carried: bool) returns (ok: bool)
      requires Valid()
      modifies this
      ensures Valid() && View() == Send(old(View()), body, carried) && ok == Carried(old(View()), carried)
    {
      var _ := Number(body);
      ok := link.hasHello && carried;
      link := link.(outboundFailed := !ok);
    }

    method CurrentSnapshot(carried: bool) returns (ok: bool)
      requires Valid() && !failed
      modifies this
      ensures Valid() && View() == Lifecycles.CurrentSnapshot(old(View()), carried) && ok == !failed
      ensures life == old(life)
    {
      if life.state == New {
        return true;
      }
      ok := SendControlMessage(Snapshot(SnapshotReport(life, result), link.openerId), carried);
      ok := ok || !poisoned;
      failed := !ok;
    }

    /** Draws identifiers until one is new, as the program does in place. */
    method DrawBoundaryId(draws: seq<string>) returns (ok: bool)
      modifies this`gate
      ensures ok == FreshId(draws, old(gate.ids)).Some? && gate == Drawn(old(gate), draws)
    {
      ghost var g := gate;
      var i := 0;
      while i < |draws|
        invariant 0 <= i <= |draws|
        invariant FreshId(draws, g.ids) == FreshId(draws[i..], g.ids)
        invariant gate == g.(id := if i == 0 then g.id else Some(draws[i - 1]))
      {
        assert draws[i..][0] == draws[i] && draws[i..][1..] == draws[i + 1..];
        gate := gate.(id := Some(draws[i]));
        if draws[i] !in gate.ids {
          gate := gate.(ids := gate.ids + [draws[i]]);
          return true;
        }
        i := i + 1;
      }
      return false;
    }

    method SendBoundaryAck(headerBytes: nat, payloadBytes: nat, expected: nat, draws: seq<string>, taken: bool)
      returns (ok: bool)
      requires Valid()
      modifies this
      ensures Valid() && View() == SendBoundary(old(View()), headerBytes, payloadBytes, expected, draws)
      ensures ok == (Acknowledges(old(View()).s, headerBytes, payloadBytes, expected, draws) && taken)
    {
      ghost var s := View().s;
      ghost var body := if Acknowledges(s, headerBytes, payloadBytes, expected, draws)
                        then Boundary(AckFor(s, FreshId(draws, gate.ids).value, headerBytes, payloadBytes, expected))
                        else Abandoned;
      var sequence := Number(body);
      if !Discardable(headerBytes, payloadBytes, expected) || |gate.ids| >= CONNECTION_MAX {
        return false;
      }
      var drawn := DrawBoundaryId(draws);
      if !drawn || life.state == New {
        return false;
      }
      gate := gate.(digest := Some(Ack(gate.id.value, gate.epoch, gate.epoch - 1, headerBytes, payloadBytes, expected,
                                       link.lastHostWire, sequence, StateReport(life), link.openerId,
                                           identity.hostNonce)));
      return taken;
    }

    method Disconnect(opens: bool, ghost before: Reader)
      requires Valid() && reader.View() == Cleared(before)
      modifies this`link, this`life, this`gate
      ensures View() == Disconnected(old(View()), before, opens)
      ensures life.stopDelivered == old(life.stopDelivered)
    {
      link := link.(hasHello := false, outboundFailed := false);
      life := life.(lateStopAllowed := false);
      if opens {
        gate := gate.(epoch := gate.epoch + 1);
      }
    }

    method ConnectionLost(held: Held, ghost before: Reader, draws: seq<string>, taken: bool)
      requires Valid() && held == HeldBy(before) && reader.View() == Cleared(before)
      modifies this
      ensures Valid() && View() == Lifecycles.ConnectionLost(old(View()), before, draws, taken)
      ensures life.stopDelivered == old(life.stopDelivered)
    {
      var opens := held.connected && link.keyAckWire != 0;
      Disconnect(opens, before);
      if opens {
        var ok := SendBoundaryAck(held.header, held.payload, held.expected, draws, taken);
        if !ok {
          poisoned := true;
        }
      }
    }

    method Poisoned()
      requires Valid()
      modifies this
      ensures Valid() && View() == Poison(old(View()))
    {
      poisoned, failed := true, true;
    }

    /** The first frame of a connection. */
    method Opening(i: Input) returns (ok: bool)
      requires Valid() && !failed && !link.hasHello && !link.outboundFailed
      modifies this
      ensures Valid() && View() == Lifecycles.Admit(old(View()), i) && ok == !failed && life == old(life)
    {
      if link.keyAckWire != 0 {
        ok := ParseReconnect(i.message);
      } else {
        ok := ParseHello(i.message);
      }
      if !ok {
        Poisoned();
        return;
      }
      ok := CurrentSnapshot(i.carried);
    }

    /** Any other frame. */
    method Request(i: Input) returns (ok: bool, dispatchStop: bool)
      requires Valid() && !failed && link.hasHello && !link.outboundFailed
      modifies this
      ensures Valid() && View() == Lifecycles.Admit(old(View()), i) && ok == !failed
      ensures life.stopDelivered == old(life.stopDelivered) + if dispatchStop then 1 else 0
    {
      var stop := ParseStop(i.message);
      if stop.Some? {
        return true, stop == Some(STOP);
      }
      ok := ParseExec(i.message, i.now);
      if !ok {
        Poisoned();
      }
      return ok, false;
    }

    method Admit(i: Input) returns (ok: bool, dispatchStop: bool)
      requires Valid() && !failed
      modifies this
      ensures Valid() && View() == Lifecycles.Admit(old(View()), i) && ok == !failed
      ensures life.stopDelivered == old(life.stopDelivered) + if dispatchStop then 1 else 0
    {
      if link.outboundFailed {
        Poisoned();
        return false, false;
      }
      if !link.hasHello {
        ok := Opening(i);
        return ok, false;
      }
      ok, dispatchStop := Request(i);
    }

    method React(outcome: Outcome, held: Held, ghost before: Reader, i: Input) returns (ok: bool, dispatchStop: bool)
      requires Valid() && !failed && held == HeldBy(before)
      requires outcome == PeerClosed ==> reader.View() == Cleared(before)
      modifies this
      ensures Valid() && View() == Lifecycles.React(old(View()), outcome, before, i) && ok == !failed
      ensures life.stopDelivered == old(life.stopDelivered) + if dispatchStop then 1 else 0
    {
      match outcome
      case PeerClosed =>
        ConnectionLost(held, before, i.draws, i.taken);
        return true, false;
      case Frame(_) =>
        ok, dispatchStop := Admit(i);
      case Reject =>
        Poisoned();
        return false, false;
      case _ =>
        if link.outboundFailed && i.expired {
          Poisoned();
          return false, false;
        }
        return true, false;
    }

    /** One turn of the pump; `again` says whether another complete frame may follow. */
    method PumpOnce(i: Input) returns (ok: bool, again: bool, dispatchStop: bool)
      requires Valid() && Partial(reader.View()) && !failed
      modifies this, reader, reader.header, reader.payload
      ensures Valid() && View() == Pump(old(View()), i) && ok == !failed
      ensures again == (ok && Called(old(reader.View()), i.polls).1.Frame?)
      ensures ok ==> Partial(reader.View())
      ensures life.stopDelivered == old(life.stopDelivered) + if dispatchStop then 1 else 0
    {
      ghost var r := reader.View();
      CalledConnects(r, i.polls);
      var outcome, held := reader.ReadControlFrame(i.polls);
      if outcome == PeerClosed {
        CalledClears(r, i.polls);
      }
      ghost var read := reader.View();
      ok, dispatchStop := React(outcome, held, BeforeClose(r, i.polls), i);
      assert reader.View() == read;
      again := ok && outcome.Frame?;
    }

    /** The turn behind the first `n`, of a call that began in `w`. */
    method PumpNext(inputs: seq<Input>, n: nat, ghost w: World) returns (ok: bool, again: bool, dispatched: bool)
      requires Valid() && Partial(reader.View()) && PumpEnabled(life) && !failed
      requires n < |inputs| && View() == Run(w, AsEvents(inputs[..n]))
      modifies this, reader, reader.header, reader.payload
      ensures Valid() && View() == Run(w, AsEvents(inputs[..n + 1])) && ok == !failed && (ok ==> Partial(reader.View()))
      ensures View() == Pump(old(View()), inputs[n])
      ensures again == (ok && Called(old(reader.View()), inputs[n].polls).1.Frame?)
      ensures again ==> Partial(reader.View()) && PumpEnabled(life) && !failed
      ensures !again ==> Ends(w, inputs[..n + 1])
      ensures life.stopDelivered == old(life.stopDelivered) + if dispatched then 1 else 0
    {
      ghost var before := View();
      ok, again, dispatched := PumpOnce(inputs[n]);
      OneMoreTurn(w, inputs, n, before, View());
      if again {
        PumpContinues(before, inputs[n]);
      }
    }

    /**
     At most 64 frames, so that a chatty host cannot keep the supervisor from its other
     duties.  The call is the run of the `turns` inputs that it consumed, and it consumes
     fewer than it may only because a turn failed or was not a complete frame.
     */
    method LifecyclePump(inputs: seq<Input>) returns (ok: bool, dispatchStop: bool, turns: nat)
      requires Valid() && Partial(reader.View()) && PumpEnabled(life) && !failed
      modifies this, reader, reader.header, reader.payload
      ensures Valid() && turns <= |inputs| && turns <= 64
      ensures View() == Run(old(View()), AsEvents(inputs[..turns])) && ok == !failed
      ensures turns < |inputs| && turns < 64 ==> turns > 0 && Ends(old(View()), inputs[..turns])
      ensures View() == Batch(old(View()), inputs, BATCH_MAX) && (ok ==> Partial(reader.View()))
      ensures dispatchStop == (life.stopDelivered > old(life.stopDelivered))
    {
      hide Pump, Called, Batch;
      ghost var w := View();
      assert inputs[0..] == inputs;
      dispatchStop, turns := false, 0;
      while turns < BATCH_MAX && turns < |inputs|
        invariant 0 <= turns <= BATCH_MAX && turns <= |inputs|
        invariant Valid() && Partial(reader.View()) && PumpEnabled(life) && !failed
        invariant View() == Run(w, AsEvents(inputs[..turns]))
        invariant Batch(w, inputs, BATCH_MAX) == Batch(View(), inputs[turns..], BATCH_MAX - turns)
        invariant life.stopDelivered >= old(life.stopDelivered)
        invariant dispatchStop == (life.stopDelivered > old(life.stopDelivered))
      {
        var again, dispatched;
        BatchStep(View(), inputs[turns..], BATCH_MAX - turns);
        assert inputs[turns..][0] == inputs[turns] && inputs[turns..][1..] == inputs[turns + 1..];
        ok, again, dispatched := PumpNext(inputs, turns, w);
        dispatchStop, turns := dispatchStop || dispatched, turns + 1;
        if !again {
          return;
        }
      }
      BatchEnds(View(), inputs[turns..], BATCH_MAX - turns);
      return true, dispatchStop, turns;
    }

    // ----- The supervisor's own steps

    /** Waits for HELLO; a peer that goes away after its first byte ends the session. */
    method Prepare(polls: seq<Poll>, m: Message) returns (ok: bool)
      requires Valid() && Partial(reader.View()) && !failed
      modifies this, reader, reader.header, reader.payload
      ensures Valid() && View() == Open(old(View()), polls, m) && ok == !failed
    {
      var outcome, held := reader.ReadControlFrame(polls);
      match outcome
      case Frame(_) =>
        ok := ParseHello(m);
        if !ok {
          Poisoned();
        }
      case PeerClosed =>
        if held.connected {
          Poisoned();
          return false;
        }
        return true;
      case Reject =>
        Poisoned();
        return false;
      case _ => return true;
    }

    method Bootstrap(secret: string, carried: bool) returns (ok: bool)
      requires Valid() && !failed
      modifies this
      ensures Valid() && View() == BootstrapSent(old(View()), secret, carried) && ok == !failed
    {
      identity := identity.(generation := secret);
      link := link.(bootstrapWire := nextSequence);
      ok := SendControlMessage(Body.Bootstrap(secret, link.lastHelloId), carried);
      failed := !ok;
    }

    method AwaitKeyAck(outcome: Outcome, m: Message) returns (ok: bool)
      requires Valid() && !failed
      modifies this
      ensures Valid() && View() == KeyAnswered(old(View()), outcome, m) && ok == !failed
    {
      ok := outcome != PeerClosed && outcome != Reject;
      if outcome.Frame? {
        ok := ParseKeyAck(m);
      }
      failed := !ok;
    }

    /** One turn of the exchange that waits for KEY_ACK. */
    method Authenticate(sentAt: nat, now: nat, polls: seq<Poll>, m: Message) returns (ok: bool)
      requires Valid() && Partial(reader.View()) && !failed
      modifies this, reader, reader.header, reader.payload
      ensures Valid() && View() == Authenticated(old(View()), sentAt, now, polls, m) && ok == !failed
    {
      if now >= sentAt + EXCHANGE_MILLIS {
        failed := true;
        return false;
      }
      var outcome, held := reader.ReadControlFrame(polls);
      ok := AwaitKeyAck(outcome, m);
    }

    method Commit(verified: bool, carried: bool)
      requires Valid()
      modifies this
      ensures Valid() && View() == Committed(old(View()), verified, carried)
    {
      life := life.(state := Ready);
      if verified {
        var _ := SendControlMessage(ReadyNotice(link.keyAckWire), carried);
      } else {
        var _ := Number(Abandoned);
      }
    }

    /** The supervisor has reaped the main workload. */
    method MainExits(cause: Cause)
      requires Valid()
      modifies this
      ensures Valid() && View() == MainExited(old(View()), cause)
    {
      result := Some(cause);
      if life.stopId == 0 {
        life := life.(frozen := true, lateStopAllowed := link.hasHello, terminal := cause);
        frozenEpoch := gate.epoch;
      }
    }

    method Finish(carried: bool)
      requires Valid() && result.Some?
      modifies this
      ensures Valid() && View() == Finished(old(View()), carried) && failed == old(failed)
    {
      life := life.(state := Terminal, terminal := result.value);
      if link.hasHello {
        var _ := SendControlMessage(TerminalNotice(Reported(Terminal, life.stopId, result)), carried);
      }
    }
  }

  const BATCH_MAX := 64

  /** At most `n` turns, up to one that fails or is not a complete frame. */
  function Batch(w: World, inputs: seq<Input>, n: nat): World
    decreases n
  {
    if n == 0 || inputs == [] then w
    else
      var v := Pump(w, inputs[0]);
      if v.failed || !Called(w.s.reader, inputs[0].polls).1.Frame? then v else Batch(v, inputs[1..], n - 1)
  }

  lemma BatchStep(w: World, inputs: seq<Input>, n: nat)
    requires n > 0 && inputs != []
    ensures var v := Pump(w, inputs[0]);
            Batch(w, inputs, n) ==
            if v.failed || !Called(w.s.reader, inputs[0].polls).1.Frame? then v else Batch(v, inputs[1..], n - 1)
  {
  }

  lemma BatchEnds(w: World, inputs: seq<Input>, n: nat)
    requires n == 0 || inputs == []
    ensures Batch(w, inputs, n) == w
  {
  }

  function AsEvents(inputs: seq<Input>): (events: seq<Event>)
    ensures |events| == |inputs|
  {
    seq(|inputs|, i requires 0 <= i < |inputs| => PumpTurn(inputs[i]))
  }

  /** The last of these turns failed or was not a complete frame. */
  ghost predicate Ends(w: World, inputs: seq<Input>)
    requires inputs != []
  {
    var before := Run(w, AsEvents(inputs[..|inputs| - 1]));
    var last := inputs[|inputs| - 1];
    Run(w, AsEvents(inputs)).failed || !Called(before.s.reader, last.polls).1.Frame?
  }

  lemma OneMoreTurn(w: World, inputs: seq<Input>, n: nat, before: World, after: World)
    requires n < |inputs| && before == Run(w, AsEvents(inputs[..n])) && after == Pump(before, inputs[n])
    requires !before.failed && PumpEnabled(before.s.life)
    ensures after == Run(w, AsEvents(inputs[..n + 1]))
    ensures after.failed || !Called(before.s.reader, inputs[n].polls).1.Frame? ==> Ends(w, inputs[..n + 1])
  {
    assert AsEvents(inputs[..n + 1]) == AsEvents(inputs[..n]) + [PumpTurn(inputs[n])];
    assert Step(before, PumpTurn(inputs[n])) == after;
    RunLast(w, AsEvents(inputs[..n]), PumpTurn(inputs[n]));
    assert inputs[..n + 1][..n] == inputs[..n];
  }

  /** After a frame that was taken the pump may go on. */
  lemma PumpContinues(w: World, i: Input)
    requires !w.failed && PumpEnabled(w.s.life) && Partial(w.s.reader) && Called(w.s.reader, i.polls).1.Frame?
    ensures var next := Pump(w, i); PumpEnabled(next.s.life) && Partial(next.s.reader)
  {
    CalledConnects(w.s.reader, i.polls);
    var t := w.(s := w.s.(reader := Called(w.s.reader, i.polls).0));
    AdmitMoves(t, i);
    StaysEnabled(t, Admit(t, i));
  }

  lemma StaysEnabled(w: World, v: World)
    requires PumpEnabled(w.s.life) && (Admits(w, v) || v.s.life == w.s.life)
    ensures PumpEnabled(v.s.life)
  {
  }
}
