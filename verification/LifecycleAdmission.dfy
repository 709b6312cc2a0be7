/**
 Which host frames are taken, and what each of them does.

 In every reachable world a complete frame is admitted exactly when the fields of the session and
 the record of what was accepted before allow it, and otherwise it poisons the session.
 */
module LifecycleAdmission {
  import opened Bytes
  import opened FrameReaders
  import opened Lifecycles
  import opened LifecycleMoves
  import opened LifecycleProofs

  // ----- Used request ids, by the record alone

  /** Every accepted opening, STOP or EXEC uses its id up, and an EXEC all the smaller ones as well. */
  ghost predicate Used(a: seq<Accepted>, id: nat) {
    exists i | 0 <= i < |a| :: Uses(a[i], id)
  }

  predicate Uses(x: Accepted, id: nat) {
    || (x.kind in {HELLO, RECONNECT, STOP, LATE_STOP, EXEC} && x.id == id)
    || (x.kind == EXEC && id <= x.id)
  }

  /** The ledger has nothing in it that the record does not explain. */
  ghost predicate Explained(w: World) {
    && (forall id | id in w.s.ledger.requests :: Used(w.accepted, id))
    && (w.s.ledger.lastExecId != 0 ==> exists i | 0 <= i < |w.accepted| ::
          w.accepted[i].kind == EXEC && w.accepted[i].id == w.s.ledger.lastExecId)
    && (w.s.link.lastHelloId == 0 ==> w.s.ledger == Ledger([], [], 0))
    && (|w.accepted| == 1 ==> w.s.link.hasHello)
  }

  lemma UsedGrows(a: seq<Accepted>, x: Accepted, id: nat)
    ensures Used(a + [x], id) == (Used(a, id) || Uses(x, id))
  {
    var b := a + [x];
    if Used(a, id) {
      var i :| 0 <= i < |a| && Uses(a[i], id);
      assert b[i] == a[i];
    }
    if Uses(x, id) {
      assert b[|a|] == x;
    }
    if Used(b, id) {
      var i :| 0 <= i < |b| && Uses(b[i], id);
      assert i < |a| ==> a[i] == b[i];
    }
  }

  lemma ExplainedKept(w: World, v: World)
    requires Explained(w) && Moves(w, v) && Ordered(w) && Attached(w)
    ensures Explained(v)
  {
    if Admits(w, v) {
      var x := v.accepted[|w.accepted|];
      assert v.accepted == w.accepted + [x];
      forall id | id in v.s.ledger.requests ensures Used(v.accepted, id) {
        UsedGrows(w.accepted, x, id);
      }
    }
  }

  lemma {:induction false} RunExplains(w: World, events: seq<Event>)
    requires Invariant(w) && Explained(w)
    ensures Explained(Run(w, events))
    decreases events
  {
    if events != [] {
      if Enabled(w, events[0]) {
        StepMoves(w, events[0]);
        ExplainedKept(w, Step(w, events[0]));
      }
      StepKeeps(w, events[0]);
      RunExplains(Step(w, events[0]), events[1..]);
    }
  }

  lemma SeenMeans(w: World, id: nat)
    requires id > 0 && UsedOnce(w.accepted, w.s.ledger, w.s.life.stopId) && Explained(w)
    ensures RequestSeen(w.s.ledger, id) <==> Used(w.accepted, id)
  {
    var a, l := w.accepted, w.s.ledger;
    if Used(a, id) {
      var i :| 0 <= i < |a| && Uses(a[i], id);
      assert Once(a[i].kind) && RequestSeen(l, a[i].id);
    }
  }

  /** In every reachable world the ledger refuses exactly the ids that the record has used up. */
  lemma SeenIffUsed(binding: Binding, events: seq<Event>, id: nat)
    requires id > 0
    ensures var w := Run(Start(binding), events); RequestSeen(w.s.ledger, id) <==> Used(w.accepted, id)
  {
    Reachable(binding, events);
    RunExplains(Start(binding), events);
    hide Run, RequestSeen, Used, Numbered, Ordered, Attached, Counted, Authorised, Pending, UsedOnce, Lived, LateOnce,
      ReportsAgree, Explained;
    SeenMeans(Run(Start(binding), events), id);
  }

  // ----- Whose frame it is

  /** A number that the channel carries. */
  predicate Number(n: nat) {
    1 <= n < 0x8000_0000_0000_0000
  }

  /** Signed for this run and this epoch, and newer than everything accepted so far. */
  predicate FromHost(s: Session, e: Envelope) {
    && e.authentic && e.binding == s.identity.binding && e.attempt == s.identity.attempt
    && e.generation == s.identity.generation && e.epoch == s.gate.epoch
    && Number(e.wire) && s.link.lastHostWire < e.wire
  }

  /** Signed for the connection that is open, too. */
  predicate OnConnection(s: Session, e: Envelope) {
    FromHost(s, e) && e.nonce == s.identity.hostNonce
  }

  predicate HexDigits(nonce: string) {
    |nonce| == 64 && forall i | 0 <= i < |nonce| :: nonce[i] in "0123456789abcdef"
  }

  lemma HexMeans(nonce: string)
    ensures HexDigits(nonce) <==> Hex(nonce)
  {
  }

  /** The supervisor pumps, and its reader ends the turn with `outcome`. */
  predicate Answers(w: World, i: Input, outcome: Outcome) {
    && !w.failed && w.s.life.state != New && (w.s.life.frozen ==> w.s.life.state == Terminal)
    && Called(w.s.reader, i.polls).1 == outcome
  }

  /** A complete frame, on a connection whose last send the carrier took. */
  predicate Delivers(w: World, i: Input) {
    && Answers(w, i, Called(w.s.reader, i.polls).1) && Called(w.s.reader, i.polls).1.Frame?
    && !w.s.link.outboundFailed
  }

  /** The frame is admitted as `x` and nothing else. */
  predicate Takes(w: World, v: World, x: Accepted) {
    v.accepted == w.accepted + [x] && v.s.link.lastHostWire == x.wire
  }

  /** The frame changes nothing but that the session is finished. */
  predicate Turned(w: World, v: World) {
    && v == w.(s := v.s, failed := true)
    && v.s == w.s.(reader := v.s.reader, poisoned := true)
  }

  // ----- STOP

  predicate GoodStop(w: World, m: Message) {
    m.Stop? && OnConnection(w.s, m.envelope) && m.signal == 15 && Number(m.requestId)
  }

  ghost predicate FirstStop(w: World, m: Message) {
    && GoodStop(w, m) && w.s.life.state == Ready && !w.s.life.frozen && !Used(w.accepted, m.requestId)
  }

  predicate RetriedStop(w: World, m: Message) {
    GoodStop(w, m) && w.s.life.state == Stopping && m.requestId == w.s.life.stopId
  }

  ghost predicate LateStop(w: World, m: Message) {
    GoodStop(w, m) && w.s.life.lateStopAllowed && !Used(w.accepted, m.requestId)
  }

  function Entry(w: World, kind: Kind, m: Message): Accepted
    requires m.Stop? || m.Exec?
  {
    Accepted(kind, m.requestId, m.envelope.wire, w.s.gate.epoch, None, None)
  }

  ghost predicate StopVerdict(w: World, v: World, m: Message)
    requires m.Stop?
  {
    var life := w.s.life;
    && (Takes(w, v, Entry(w, STOP, m)) <==> FirstStop(w, m))
    && (Takes(w, v, Entry(w, STOP_RETRY, m)) <==> RetriedStop(w, m))
    && (Takes(w, v, Entry(w, LATE_STOP, m)) <==> LateStop(w, m))
    && (FirstStop(w, m) ==>
          v.s.life == life.(state := Stopping, stopId := m.requestId, stopDelivered := 1) && !v.failed)
    && (RetriedStop(w, m) ==> v.s.life == life && !v.failed)
    && (LateStop(w, m) ==> v.s.life == life.(lateStopAllowed := false) && !v.failed)
    && (!FirstStop(w, m) && !RetriedStop(w, m) && !LateStop(w, m) ==> Turned(w, v))
  }

  /** The facts about a reachable world that admission rests on. */
  ghost predicate Grounded(w: World) {
    && Lived(w) && (w.s.life.lateStopAllowed ==> w.s.life.frozen)
    && (forall id: nat | id > 0 :: RequestSeen(w.s.ledger, id) <==> Used(w.accepted, id))
    && ((w.s.life.stopId == 0 && !w.s.life.frozen) || w.s.life.lateStopAllowed ==>
          |w.s.ledger.requests| < LEDGER_MAX)
    && (|w.s.ledger.nonces| < CONNECTION_MAX ==> |w.s.ledger.requests| < LEDGER_MAX)
    && (w.s.life.state != New ==> w.s.link.keyAckWire != 0)
    && (w.s.link.lastHelloId == 0 ==> w.accepted == [] && !w.s.link.hasHello && w.s.ledger == Ledger([], [], 0))
    && (w.s.link.bootstrapWire != 0 && w.s.link.keyAckWire == 0 ==> w.s.link.hasHello && w.s.link.lastHostWire == 1)
  }

  /** The supervisor pumps a live session. */
  predicate Serving(w: World) {
    !w.failed && w.s.life.state != New && (w.s.life.frozen ==> w.s.life.state == Terminal)
  }

  lemma Grounds(w: World)
    requires Invariant(w) && Explained(w)
    ensures Grounded(w)
  {
    forall id: nat | id > 0 ensures RequestSeen(w.s.ledger, id) <==> Used(w.accepted, id) {
      SeenMeans(w, id);
    }
    hide RequestSeen, Used, Numbered, Counted, Authorised, Pending, UsedOnce, ReportsAgree;
    if w.s.life.stopId == 0 && !w.s.life.frozen {
      assert !LateTaken(w);
    }
  }

  lemma ReachableGrounds(binding: Binding, events: seq<Event>)
    ensures Grounded(Run(Start(binding), events))
  {
    Reachable(binding, events);
    RunExplains(Start(binding), events);
    Grounds(Run(Start(binding), events));
  }

  lemma StopChosen(w: World, m: Message)
    requires Grounded(w) && Serving(w) && w.s.link.hasHello && GoodStop(w, m)
    ensures FirstStop(w, m) ==> StopKind(w.s, m.requestId) == Some(STOP)
    ensures RetriedStop(w, m) ==> StopKind(w.s, m.requestId) == Some(STOP_RETRY)
    ensures LateStop(w, m) ==> StopKind(w.s, m.requestId) == Some(LATE_STOP)
    ensures !FirstStop(w, m) && !RetriedStop(w, m) && !LateStop(w, m) ==> StopKind(w.s, m.requestId) == None
  {
    hide Used, RequestSeen;
  }

  /** A frame is taken as one thing only. */
  lemma OneEntry(w: World, v: World, x: Accepted)
    requires v.accepted == w.accepted + [x]
    ensures forall y | Takes(w, v, y) :: y == x
  {
    forall y | Takes(w, v, y) ensures y == x {
      assert v.accepted[|w.accepted|] == y;
    }
  }

  lemma StopAdmission(w: World, t: World, i: Input)
    requires Grounded(w) && Serving(w) && t == w.(s := w.s.(reader := t.s.reader)) && i.message.Stop?
    requires w.s.link.hasHello && !w.s.link.outboundFailed
    ensures StopVerdict(w, Admit(t, i), i.message)
  {
    var m := i.message;
    assert GoodStop(w, m) <==> Signed(t.s, m.envelope, false) && m.signal == SIGTERM && ValidId(m.requestId);
    if GoodStop(w, m) {
      StopChosen(w, m);
      assert StopKind(t.s, m.requestId) == StopKind(w.s, m.requestId);
    }
    assert w.s.life.stopId == 0 ==> w.s.life.stopDelivered == 0;
    hide Used, RequestSeen, StopKind, Signed, Lived;
    var v := Admit(t, i);
    assert |v.accepted| == |w.accepted| ==> forall x :: v.accepted != w.accepted + [x];
    if !GoodStop(w, m) {
      assert Turned(w, v);
    } else if StopKind(t.s, m.requestId) == None {
      assert Turned(w, v);
    } else {
      var kind := StopKind(t.s, m.requestId).value;
      assert v.accepted == w.accepted + [Entry(w, kind, m)];
      assert v.s.life == Stopped(w.s.life, kind, m.requestId);
      OneEntry(w, v, Entry(w, kind, m));
    }
  }

  lemma StopTurn(w: World, i: Input)
    requires Grounded(w) && Delivers(w, i) && w.s.link.hasHello && i.message.Stop?
    ensures StopVerdict(w, Step(w, PumpTurn(i)), i.message)
  {
    hide Called, BeforeClose, Used;
    var t := w.(s := w.s.(reader := Called(w.s.reader, i.polls).0));
    StopAdmission(w, t, i);
    hide StopVerdict, Admit;
  }

  // ----- EXEC

  ghost predicate GoodExec(w: World, m: Message) {
    && m.Exec? && OnConnection(w.s, m.envelope) && w.s.life.state == Ready && !w.execBusy
    && 1 <= |m.argv| <= 64 && m.argv[0] != [] && m.argvWidth <= 8192 && 1 <= m.timeout <= 600000
    && Number(m.requestId) && !Used(w.accepted, m.requestId)
  }

  ghost predicate ExecVerdict(w: World, v: World, m: Message, now: nat)
    requires m.Exec?
  {
    if GoodExec(w, m) then
      && Takes(w, v, Entry(w, EXEC, m)) && v.execBusy && v.execDeadline == now + m.timeout
      && v.s.life == w.s.life && v.sent == w.sent && !v.failed
    else Turned(w, v)
  }

  lemma ExecAdmission(w: World, t: World, i: Input)
    requires Grounded(w) && Serving(w) && t == w.(s := w.s.(reader := t.s.reader)) && i.message.Exec?
    requires w.s.link.hasHello && !w.s.link.outboundFailed
    ensures ExecVerdict(w, Admit(t, i), i.message, i.now)
  {
    hide Used, RequestSeen;
  }

  lemma ExecTurn(w: World, i: Input)
    requires Grounded(w) && Delivers(w, i) && w.s.link.hasHello && i.message.Exec?
    ensures ExecVerdict(w, Step(w, PumpTurn(i)), i.message, i.now)
  {
    hide Called, BeforeClose, Used;
    var t := w.(s := w.s.(reader := Called(w.s.reader, i.polls).0));
    ExecAdmission(w, t, i);
    hide ExecVerdict, Admit;
  }

  // ----- RECONNECT

  ghost predicate GoodReconnect(w: World, m: Message) {
    && m.Reconnect? && FromHost(w.s, m.envelope) && HexDigits(m.envelope.nonce)
    && m.envelope.nonce !in w.s.ledger.nonces && |w.s.ledger.nonces| < 16
    && w.s.gate.digest == Some(m.ack) && w.s.gate.id == Some(m.boundaryId)
    && Number(m.requestId) && !Used(w.accepted, m.requestId)
  }

  /** What the guest tells about its life: the STOP once it is committed, and the cause at the end. */
  function Told(w: World): Report {
    match w.s.life.state
    case New => Reported(New, w.s.life.stopId, None)
    case Ready => Reported(Ready, 0, None)
    case Stopping => Reported(Stopping, w.s.life.stopId, None)
    case Terminal => Reported(Terminal, w.s.life.stopId, w.result)
  }

  ghost predicate Reconnected(w: World, v: World, m: Message, carried: bool)
    requires m.Reconnect?
  {
    && Takes(w, v, Accepted(RECONNECT, m.requestId, m.envelope.wire, w.s.gate.epoch, w.s.gate.digest, w.s.gate.id))
    && v.sent == w.sent + [Attempted(w.s.nextSequence, Snapshot(Told(w), m.requestId))]
    && v.s.link.hasHello && v.s.link.openerId == m.requestId && v.s.identity.hostNonce == m.envelope.nonce
    && v.s.gate == w.s.gate.(id := None, digest := None) && v.s.life == w.s.life
    && v.s.ledger.nonces == w.s.ledger.nonces + [m.envelope.nonce]
    && v.s.link.outboundFailed == !carried && v.failed == (!carried && w.s.poisoned)
  }

  ghost predicate ReconnectVerdict(w: World, v: World, m: Message, carried: bool)
    requires m.Reconnect?
  {
    if GoodReconnect(w, m) then Reconnected(w, v, m, carried) else Turned(w, v)
  }

  lemma ReconnectAdmission(w: World, t: World, i: Input)
    requires Grounded(w) && Serving(w) && t == w.(s := w.s.(reader := t.s.reader)) && i.message.Reconnect?
    requires !w.s.link.hasHello && !w.s.link.outboundFailed
    ensures ReconnectVerdict(w, Admit(t, i), i.message, i.carried)
  {
    HexMeans(i.message.envelope.nonce);
    hide Used, RequestSeen, Hex, HexDigits;
  }

  lemma ReconnectTurn(w: World, i: Input)
    requires Grounded(w) && Delivers(w, i) && !w.s.link.hasHello && i.message.Reconnect?
    ensures ReconnectVerdict(w, Step(w, PumpTurn(i)), i.message, i.carried)
  {
    hide Called, BeforeClose, Used;
    var t := w.(s := w.s.(reader := Called(w.s.reader, i.polls).0));
    ReconnectAdmission(w, t, i);
    hide ReconnectVerdict, Admit;
  }

  // ----- HELLO and KEY_ACK

  predicate GoodHello(w: World, m: Message) {
    && m.Hello? && m.binding == w.s.identity.binding && m.epoch == 1 && m.wire == 1
    && HexDigits(m.nonce) && Number(m.requestId)
  }

  ghost predicate HelloVerdict(w: World, v: World, m: Message) {
    if GoodHello(w, m) then
      && v.accepted == [Accepted(HELLO, m.requestId, 1, 1, None, None)] && v.sent == w.sent && !v.failed
      && v.s.identity == w.s.identity.(attempt := m.attempt, hostNonce := m.nonce) && v.s.gate.epoch == 1
      && v.s.link == w.s.link.(hasHello := true, openerId := m.requestId, lastHelloId := m.requestId,
                               lastHostWire := 1)
      && v.s.ledger.nonces == [m.nonce]
    else Turned(w, v)
  }

  lemma HelloTurn(w: World, polls: seq<Poll>, m: Message)
    requires Grounded(w) && !w.failed && w.s.link.lastHelloId == 0
    requires Called(w.s.reader, polls).1.Frame?
    ensures HelloVerdict(w, Step(w, OpenWith(polls, m)), m)
  {
    hide Called, BeforeClose, Hex, HexDigits;
    if m.Hello? {
      HexMeans(m.nonce);
    }
  }

  predicate GoodKeyAck(w: World, m: Message) {
    && m.KeyAck? && OnConnection(w.s, m.envelope) && m.envelope.epoch == 1
    && m.replyTo == w.s.link.bootstrapWire && m.envelope.wire == 2
  }

  ghost predicate KeyAckVerdict(w: World, v: World, m: Message) {
    if GoodKeyAck(w, m) then
      && Takes(w, v, Accepted(KEY_ACK, 0, 2, 1, None, None)) && v.sent == w.sent && !v.failed
      && v.s.link == w.s.link.(lastHostWire := 2, keyAckWire := 2) && v.s.life == w.s.life
    else v == w.(s := w.s.(reader := v.s.reader), failed := true)
  }

  lemma KeyAckTurn(w: World, sentAt: nat, now: nat, polls: seq<Poll>, m: Message)
    requires Grounded(w) && !w.failed && w.s.link.bootstrapWire != 0 && w.s.link.keyAckWire == 0
    requires now < sentAt + 5000
    requires Called(w.s.reader, polls).1.Frame?
    ensures KeyAckVerdict(w, Step(w, Authenticate(sentAt, now, polls, m)), m)
  {
    hide Called, BeforeClose;
  }

  // ----- Frames that have no meaning where they arrive

  /** What can be admitted on a connection that said HELLO, and on one that did not. */
  predicate Expected(w: World, m: Message) {
    if w.s.link.hasHello then m.Stop? || m.Exec? else m.Reconnect?
  }

  lemma UnexpectedTurn(w: World, i: Input)
    requires Grounded(w) && Delivers(w, i) && !Expected(w, i.message)
    ensures Turned(w, Step(w, PumpTurn(i)))
  {
    hide Called, BeforeClose, Used;
  }

  /** A frame behind a send that the carrier refused. */
  predicate Unserved(w: World, i: Input) {
    Answers(w, i, Called(w.s.reader, i.polls).1) && Called(w.s.reader, i.polls).1.Frame? && w.s.link.outboundFailed
  }

  lemma RejectedTurn(w: World, i: Input)
    requires Answers(w, i, Reject) || Unserved(w, i)
    ensures Turned(w, Step(w, PumpTurn(i)))
  {
    hide Called, BeforeClose;
  }

  // ----- The theorems

  /**
   In every reachable world a STOP is the first one, a retry, or the late one exactly when the life
   cycle, the envelope and the record of used ids say so; then it does just what it is for, and any
   other STOP poisons the session.
   */
  lemma StopIsTaken(binding: Binding, events: seq<Event>, i: Input)
    requires var w := Run(Start(binding), events); Delivers(w, i) && w.s.link.hasHello && i.message.Stop?
    ensures var w := Run(Start(binding), events); StopVerdict(w, Step(w, PumpTurn(i)), i.message)
  {
    ReachableGrounds(binding, events);
    hide Run, Grounded, Delivers, StopVerdict;
    StopTurn(Run(Start(binding), events), i);
  }

  /** An EXEC is taken exactly while READY, with no job, and under an id that no frame used up. */
  lemma ExecIsTaken(binding: Binding, events: seq<Event>, i: Input)
    requires var w := Run(Start(binding), events); Delivers(w, i) && w.s.link.hasHello && i.message.Exec?
    ensures var w := Run(Start(binding), events); ExecVerdict(w, Step(w, PumpTurn(i)), i.message, i.now)
  {
    ReachableGrounds(binding, events);
    hide Run, Grounded, Delivers, ExecVerdict;
    ExecTurn(Run(Start(binding), events), i);
  }

  /** A RECONNECT is taken exactly with the last acknowledgement, its identifier, and a new nonce and id. */
  lemma ReconnectIsTaken(binding: Binding, events: seq<Event>, i: Input)
    requires var w := Run(Start(binding), events); Delivers(w, i) && !w.s.link.hasHello && i.message.Reconnect?
    ensures var w := Run(Start(binding), events); ReconnectVerdict(w, Step(w, PumpTurn(i)), i.message, i.carried)
  {
    ReachableGrounds(binding, events);
    hide Run, Grounded, Delivers, ReconnectVerdict;
    ReconnectTurn(Run(Start(binding), events), i);
  }

  /** The first frame of a run is taken exactly when it is a HELLO for this run. */
  lemma HelloIsTaken(binding: Binding, events: seq<Event>, polls: seq<Poll>, m: Message)
    requires var w := Run(Start(binding), events);
             !w.failed && w.s.link.lastHelloId == 0 && Called(w.s.reader, polls).1.Frame?
    ensures var w := Run(Start(binding), events); HelloVerdict(w, Step(w, OpenWith(polls, m)), m)
  {
    ReachableGrounds(binding, events);
    hide Run, Grounded, HelloVerdict, Called;
    HelloTurn(Run(Start(binding), events), polls, m);
  }

  /** The frame behind the bootstrap is taken exactly when it is its KEY_ACK, as the second frame of the host. */
  lemma KeyAckIsTaken(binding: Binding, events: seq<Event>, sentAt: nat, now: nat, polls: seq<Poll>, m: Message)
    requires var w := Run(Start(binding), events);
             && !w.failed && w.s.link.bootstrapWire != 0 && w.s.link.keyAckWire == 0 && now < sentAt + 5000
             && Called(w.s.reader, polls).1.Frame?
    ensures var w := Run(Start(binding), events); KeyAckVerdict(w, Step(w, Authenticate(sentAt, now, polls, m)), m)
  {
    ReachableGrounds(binding, events);
    hide Run, Grounded, KeyAckVerdict, Called;
    KeyAckTurn(Run(Start(binding), events), sentAt, now, polls, m);
  }

  /** Five seconds after the bootstrap the exchange is over, and so it is if the peer leaves or breaks a frame. */
  lemma ExchangeEnds(binding: Binding, events: seq<Event>, sentAt: nat, now: nat, polls: seq<Poll>, m: Message)
    requires var w := Run(Start(binding), events); !w.failed && w.s.link.bootstrapWire != 0 && w.s.link.keyAckWire == 0
    ensures var w := Run(Start(binding), events);
            var v, outcome := Step(w, Authenticate(sentAt, now, polls, m)), Called(w.s.reader, polls).1;
            && (now >= sentAt + 5000 ==> v == w.(failed := true))
            && (now < sentAt + 5000 && !outcome.Frame? ==>
                  v == w.(s := w.s.(reader := v.s.reader), failed := outcome == PeerClosed || outcome == Reject))
  {
    hide Run, Called;
  }

  /** Before HELLO nothing but a connection that breaks off or breaks a frame ends the session. */
  lemma OpeningWaits(binding: Binding, events: seq<Event>, polls: seq<Poll>, m: Message)
    requires var w := Run(Start(binding), events); !w.failed && w.s.link.lastHelloId == 0
    ensures var w := Run(Start(binding), events);
            var v, outcome := Step(w, OpenWith(polls, m)), Called(w.s.reader, polls).1;
            !outcome.Frame? ==>
              if outcome == Reject || (outcome == PeerClosed && BeforeClose(w.s.reader, polls).connected)
              then Turned(w, v)
              else v == w.(s := w.s.(reader := v.s.reader))
  {
    hide Run, Called, BeforeClose;
  }

  /** A turn without a frame only waits, unless a send was refused and its time is up. */
  lemma WaitingTurn(binding: Binding, events: seq<Event>, i: Input)
    requires var w := Run(Start(binding), events); Answers(w, i, Yield) || Answers(w, i, More)
    ensures var w := Run(Start(binding), events);
            var v := Step(w, PumpTurn(i));
            if w.s.link.outboundFailed && i.expired then Turned(w, v) else v == w.(s := w.s.(reader := v.s.reader))
  {
    hide Run, Called, BeforeClose;
  }

  /** A frame out of place, a broken one, or one behind a refused send finishes the session. */
  lemma AnyOtherFrameFails(binding: Binding, events: seq<Event>, i: Input)
    requires var w := Run(Start(binding), events);
             Answers(w, i, Reject) || Unserved(w, i) || (Delivers(w, i) && !Expected(w, i.message))
    ensures var w := Run(Start(binding), events); Turned(w, Step(w, PumpTurn(i)))
  {
    ReachableGrounds(binding, events);
    hide Run, Grounded, Delivers, Answers, Unserved, Expected, Turned;
    var w := Run(Start(binding), events);
    if Answers(w, i, Reject) || Unserved(w, i) {
      RejectedTurn(w, i);
    } else {
      UnexpectedTurn(w, i);
    }
  }

  // ----- The peer boundary

  /** The generator has a value that was not used, and `id` is the first such. */
  ghost predicate FirstFresh(draws: seq<string>, used: seq<string>, id: string) {
    exists k | 0 <= k < |draws| ::
      draws[k] == id && id !in used && forall n | 0 <= n < k :: draws[n] in used
  }

  lemma {:induction false} FreshMeans(draws: seq<string>, used: seq<string>, id: string)
    ensures FreshId(draws, used) == Some(id) <==> FirstFresh(draws, used, id)
    decreases draws
  {
    if draws != [] {
      FreshMeans(draws[1..], used, id);
      if draws[0] !in used {
        assert draws[0] == id ==> FirstFresh(draws, used, id);
      } else {
        if FirstFresh(draws[1..], used, id) {
          var k :| 0 <= k < |draws[1..]| && draws[1..][k] == id && forall n | 0 <= n < k :: draws[1..][n] in used;
          assert draws[k + 1] == id;
          assert forall n | 0 <= n < k + 1 :: n > 0 ==> draws[n] == draws[1..][n - 1];
        }
        if FirstFresh(draws, used, id) {
          var k :| 0 <= k < |draws| && draws[k] == id && forall n | 0 <= n < k :: draws[n] in used;
          assert draws[1..][k - 1] == id;
          assert forall n | 0 <= n < k - 1 :: draws[1..][n] == draws[n + 1];
        }
      }
    }
  }

  /** What the guest tells at a boundary: the frozen cause is the one it tells. */
  function ToldLife(life: Life): Report {
    match life.state
    case New => Reported(New, life.stopId, None)
    case Ready => Reported(Ready, 0, None)
    case Stopping => Reported(Stopping, life.stopId, None)
    case Terminal => Reported(Terminal, life.stopId, Some(life.terminal))
  }

  /** A boundary is acknowledged under `id`, with what the reader held of an unfinished frame. */
  ghost predicate Acknowledgement(w: World, v: World, r: Reader, id: string) {
    var s := w.s;
    var ack := Ack(id, s.gate.epoch + 1, s.gate.epoch, |r.header|, |r.payload|, r.expected, s.link.lastHostWire,
                   s.nextSequence, ToldLife(s.life), s.link.openerId, s.identity.hostNonce);
    && v.sent == w.sent + [Attempted(s.nextSequence, Boundary(ack))]
    && v.s.gate == Gate(s.gate.epoch + 1, Some(id), Some(ack), s.gate.ids + [id])
  }

  /** The connection that the peer left: acknowledged exactly with a slot and a fresh identifier, and else poisoned. */
  ghost predicate BoundaryVerdict(w: World, v: World, r: Reader, draws: seq<string>, taken: bool) {
    && !v.failed && v.accepted == w.accepted && !v.s.link.hasHello && !v.s.link.outboundFailed
    && v.s.life == w.s.life.(lateStopAllowed := false)
    && (forall id | FirstFresh(draws, w.s.gate.ids, id) && |w.s.gate.ids| < 16 ::
          Acknowledgement(w, v, r, id) && v.s.poisoned == (w.s.poisoned || !taken))
    && ((forall id :: !FirstFresh(draws, w.s.gate.ids, id)) || |w.s.gate.ids| >= 16 ==>
          v.s.poisoned && v.s.gate.epoch == w.s.gate.epoch + 1 && v.s.gate.digest == w.s.gate.digest)
  }

  /** The program's test of the discarded bytes never fails here. */
  lemma AlwaysDiscards(r: Reader)
    requires Partial(r)
    ensures Discardable(|r.header|, |r.payload|, r.expected)
  {
  }

  lemma LosesPeer(w: World, r: Reader, draws: seq<string>, taken: bool)
    requires w.s.link.keyAckWire != 0 && !w.failed && r.connected
    ensures var v := ConnectionLost(w, r, draws, taken);
            && !v.failed && v.accepted == w.accepted && !v.s.link.hasHello && !v.s.link.outboundFailed
            && v.s.life == w.s.life.(lateStopAllowed := false)
  {
    hide FreshId, Discardable;
  }

  lemma Acknowledging(w: World, r: Reader, draws: seq<string>, taken: bool, id: string)
    requires w.s.life.state != New && w.s.link.keyAckWire != 0 && r.connected && Partial(r)
    requires FreshId(draws, w.s.gate.ids) == Some(id) && |w.s.gate.ids| < 16
    ensures var v := ConnectionLost(w, r, draws, taken);
            Acknowledgement(w, v, r, id) && v.s.poisoned == (w.s.poisoned || !taken)
  {
    AlwaysDiscards(r);
    hide FreshId, Discardable, Partial;
  }

  lemma Refusing(w: World, r: Reader, draws: seq<string>, taken: bool)
    requires w.s.link.keyAckWire != 0 && r.connected
    requires FreshId(draws, w.s.gate.ids) == None || |w.s.gate.ids| >= 16
    ensures var v := ConnectionLost(w, r, draws, taken);
            v.s.poisoned && v.s.gate.epoch == w.s.gate.epoch + 1 && v.s.gate.digest == w.s.gate.digest
  {
    hide FreshId, Discardable;
  }

  lemma BoundaryTurn(w: World, r: Reader, draws: seq<string>, taken: bool)
    requires w.s.life.state != New && w.s.link.keyAckWire != 0 && !w.failed && r.connected && Partial(r)
    ensures BoundaryVerdict(w, ConnectionLost(w, r, draws, taken), r, draws, taken)
  {
    var first := FreshId(draws, w.s.gate.ids);
    forall id ensures first == Some(id) <==> FirstFresh(draws, w.s.gate.ids, id) {
      FreshMeans(draws, w.s.gate.ids, id);
    }
    LosesPeer(w, r, draws, taken);
    hide FirstFresh, FreshId, ConnectionLost, Acknowledgement, Partial;
    if first.Some? && |w.s.gate.ids| < 16 {
      Acknowledging(w, r, draws, taken, first.value);
      assert FirstFresh(draws, w.s.gate.ids, first.value);
    } else {
      Refusing(w, r, draws, taken);
    }
  }

  /** Every boundary is acknowledged with the state it leaves, exactly when it can be. */
  lemma BoundaryIsTold(binding: Binding, events: seq<Event>, i: Input)
    requires var w := Run(Start(binding), events);
             Answers(w, i, PeerClosed) && BeforeClose(w.s.reader, i.polls).connected
    ensures var w := Run(Start(binding), events);
            BoundaryVerdict(w, Step(w, PumpTurn(i)), BeforeClose(w.s.reader, i.polls), i.draws, i.taken)
  {
    Reachable(binding, events);
    ReachableGrounds(binding, events);
    var w := Run(Start(binding), events);
    hide Run, Called, BeforeClose, BoundaryVerdict, ConnectionLost, UsedOnce, Numbered, Ordered, Counted, Authorised,
      Pending, LateOnce, ReportsAgree, Lived;
    CalledConnects(w.s.reader, i.polls);
    PumpLoses(w, i);
    hide Pump;
    BoundaryTurn(w, BeforeClose(w.s.reader, i.polls), i.draws, i.taken);
  }

  // ----- The supervisor's own steps

  ghost predicate Tells(w: World, v: World, body: Body, carried: bool) {
    v.sent == w.sent + [Attempted(|w.sent| + 1, body)] && v.s.link.outboundFailed == !(w.s.link.hasHello && carried)
  }

  ghost predicate StepVerdict(w: World, v: World, e: Event) {
    match e
    case SendBootstrap(generation, carried) =>
      && Tells(w, v, Bootstrap(generation, w.s.link.lastHelloId), carried)
      && v.s.identity == w.s.identity.(generation := generation) && v.s.link.bootstrapWire == |w.sent| + 1
      && v.s.life == w.s.life
    case Commit(verified, carried) =>
      && v.s.life == w.s.life.(state := Ready) && v.s.gate == w.s.gate
      && (verified ==> Tells(w, v, ReadyNotice(2), carried))
    case MainExits(cause) =>
      && v.result == Some(cause) && v.sent == w.sent
      && (w.s.life.state == Stopping ==> v.s == w.s)
      && (w.s.life.state == Ready ==>
            v.s.life == w.s.life.(frozen := true, lateStopAllowed := w.s.link.hasHello, terminal := cause))
    case Finish(carried) =>
      && v.s.life.state == Terminal && Some(v.s.life.terminal) == v.result == w.result
      && (if w.s.link.hasHello then Tells(w, v, TerminalNotice(Reported(Terminal, w.s.life.stopId, w.result)), carried)
          else v.sent == w.sent)
    case _ => true
  }

  /**
   The bootstrap answers the HELLO; the session commits with a notice that answers the KEY_ACK; an
   exit is recorded, and frozen unless a STOP came before it; the end is told to whoever is there.
   */
  lemma SupervisorMovesOn(binding: Binding, events: seq<Event>, e: Event)
    requires Enabled(Run(Start(binding), events), e) && (e.SendBootstrap? || e.Commit? || e.MainExits? || e.Finish?)
    ensures var w := Run(Start(binding), events);
            StepVerdict(w, Step(w, e), e) && (!e.SendBootstrap? ==> !Step(w, e).failed)
  {
    Reachable(binding, events);
    RunKnowsKey(Start(binding), events);
    hide Run, Invariant, KnowsKey, Step, StepVerdict, Enabled;
    var w := Run(Start(binding), events);
    NumbersFrames(w);
    SupervisorStep(w, e);
  }

  lemma NumbersFrames(w: World)
    requires Invariant(w)
    ensures w.s.nextSequence == |w.sent| + 1 && Lived(w)
  {
  }

  lemma SupervisorStep(w: World, e: Event)
    requires Enabled(w, e) && (e.SendBootstrap? || e.Commit? || e.MainExits? || e.Finish?)
    requires w.s.nextSequence == |w.sent| + 1 && KnowsKey(w) && Lived(w)
    ensures StepVerdict(w, Step(w, e), e) && (!e.SendBootstrap? ==> !Step(w, e).failed)
  {
    hide Step;
    match e
    case SendBootstrap(generation, carried) =>
      assert Step(w, e) == BootstrapSent(w, generation, carried) by { Taken(w, e); }
    case Commit(verified, carried) => assert Step(w, e) == Committed(w, verified, carried) by { Taken(w, e); }
    case MainExits(cause) => assert Step(w, e) == MainExited(w, cause) by { Taken(w, e); }
    case Finish(carried) => assert Step(w, e) == Finished(w, carried) by { Taken(w, e); }
    case _ =>
  }

  lemma Taken(w: World, e: Event)
    requires Enabled(w, e)
    ensures e.SendBootstrap? ==> Step(w, e) == BootstrapSent(w, e.generation, e.carried)
    ensures e.Commit? ==> Step(w, e) == Committed(w, e.verified, e.carried)
    ensures e.MainExits? ==> Step(w, e) == MainExited(w, e.cause)
    ensures e.Finish? ==> Step(w, e) == Finished(w, e.carried)
  {
  }

  /** The KEY_ACK was the second frame. */
  ghost predicate KnowsKey(w: World) {
    w.s.link.keyAckWire == 0 || w.s.link.keyAckWire == 2
  }

  lemma KeyKept(w: World, v: World)
    requires KnowsKey(w) && Ordered(w) && Attached(w) && Ordered(v) && Moves(w, v)
    ensures KnowsKey(v)
  {
  }

  lemma {:induction false} RunKnowsKey(w: World, events: seq<Event>)
    requires Invariant(w) && KnowsKey(w)
    ensures KnowsKey(Run(w, events))
    decreases events
  {
    hide Moves, KnowsKey, Ordered, Attached, Step, Enabled, Lived, LateOnce, Numbered, ReportsAgree, UsedOnce, Pending,
      Authorised, Counted;
    if events != [] {
      StepKeeps(w, events[0]);
      if Enabled(w, events[0]) {
        StepMoves(w, events[0]);
        KeyKept(w, Step(w, events[0]));
      } else {
        Idle(w, events[0]);
      }
      RunKnowsKey(Step(w, events[0]), events[1..]);
    }
  }

  lemma Idle(w: World, e: Event)
    requires !Enabled(w, e)
    ensures Step(w, e) == w
  {
  }
}
