/**
 The PID 1 lifecycle session of guest/stage1/init.c against an arbitrary host.

 A `World` is the session together with everything it ever accepted or tried to send.
 Messages come already decoded; authentication is a bit that the environment chooses, and a
 digest of an acknowledgement is the acknowledgement itself, which is injective.
 */
module Lifecycles {
  import opened Bytes
  import opened FrameReaders

  const CONNECTION_MAX := 16
  const LEDGER_MAX := 17
  const ID_MAX := 0x7fff_ffff_ffff_ffff
  const SIGTERM := 15
  const EXEC_TIMEOUT_MAX := 600000
  const EXEC_ARGUMENTS_MAX := 64
  const EXEC_ARGV_BYTES_MAX := 8192
  const EXCHANGE_MILLIS := 5000

  datatype State = New | Ready | Stopping | Terminal

  function Rank(s: State): nat {
    match s case New => 0 case Ready => 1 case Stopping => 2 case Terminal => 3
  }

  /** How the main workload ended. */
  datatype Cause = Exited(code: nat) | Signaled(signal: nat)

  datatype Binding = Binding(runId: string, core: string, stage1: string)

  // ----- Messages

  /** The part of a host body that every signed kind shares. */
  datatype Envelope = Envelope(attempt: string, generation: string, binding: Binding,
                               epoch: nat, nonce: string, wire: nat, authentic: bool)

  datatype Message =
    | Hello(attempt: string, binding: Binding, epoch: nat, nonce: string, requestId: nat, wire: nat)
    | KeyAck(envelope: Envelope, replyTo: nat)
    | Reconnect(envelope: Envelope, requestId: nat, ack: Ack, boundaryId: string)
    | Stop(envelope: Envelope, requestId: nat, signal: nat)
    | Exec(envelope: Envelope, requestId: nat, timeout: nat, argv: seq<seq<byte>>, argvWidth: nat)
    | Garbled

  /** The lifecycle state as messages and acknowledgements report it. */
  datatype Report = Reported(state: State, stopId: nat, cause: Option<Cause>)

  datatype Ack = Ack(id: string, epoch: nat, previousEpoch: int, headerBytes: nat, payloadBytes: nat,
                     payloadExpected: nat, lastHostWire: nat, lastGuestWire: nat, report: Report,
                     replyTo: nat, nonce: string)

  datatype Body =
    | Bootstrap(generation: string, replyTo: nat)
    | ReadyNotice(replyTo: nat)
    | Snapshot(report: Report, replyTo: nat)
    | TerminalNotice(report: Report)
    | Boundary(ack: Ack)
    | ExecFrame
    | Abandoned

  /** One attempt to send, whether or not the carrier took it. */
  datatype Attempted = Attempted(sequence: nat, body: Body)

  datatype Kind = HELLO | KEY_ACK | RECONNECT | STOP | STOP_RETRY | LATE_STOP | EXEC

  /** A reconnect carries the digest of an acknowledgement and, beside it, a boundary identifier. */
  datatype Accepted = Accepted(kind: Kind, id: nat, wire: nat, epoch: nat, authority: Option<Ack>,
      boundary: Option<string>)

  // ----- The session

  datatype Identity = Identity(binding: Binding, attempt: string, generation: string, hostNonce: string)

  /** The channel as this connection and its key exchange left it. */
  datatype Link = Link(hasHello: bool, outboundFailed: bool, openerId: nat, lastHostWire: nat,
                       lastHelloId: nat, bootstrapWire: nat, keyAckWire: nat)

  /** The nonces and request ids that may never come again. */
  datatype Ledger = Ledger(nonces: seq<string>, requests: seq<nat>, lastExecId: nat)

  datatype Life = Life(state: State, frozen: bool, lateStopAllowed: bool, stopDelivered: nat, stopId: nat,
      terminal: Cause)

  /** The epoch, the acknowledgement that opened it while it is still unused, and all used identifiers. */
  datatype Gate = Gate(epoch: nat, id: Option<string>, digest: Option<Ack>, ids: seq<string>)

  datatype Session = Session(identity: Identity, reader: Reader, link: Link, ledger: Ledger, life: Life,
                             gate: Gate, nextSequence: nat, poisoned: bool)

  /** `result` is the supervisor's record of the main workload; `failed` ends the run. */
  datatype World = World(s: Session, accepted: seq<Accepted>, sent: seq<Attempted>,
                         result: Option<Cause>, frozenEpoch: nat, execBusy: bool, execDeadline: nat, failed: bool)

  function Start(binding: Binding): World {
    World(Session(Identity(binding, "", "", ""), FRESH_READER, Link(false, false, 0, 0, 0, 0, 0), Ledger([], [], 0),
                  Life(New, false, false, 0, 0, Exited(0)), Gate(0, None, None, []), 1, false),
          [], [], None, 0, false, 0, false)
  }

  function Fail(w: World): World {
    w.(failed := true)
  }

  function Poison(w: World): World {
    w.(s := w.s.(poisoned := true), failed := true)
  }

  predicate Hex(nonce: string) {
    |nonce| == 64 && forall i | 0 <= i < |nonce| :: '0' <= nonce[i] <= '9' || 'a' <= nonce[i] <= 'f'
  }

  predicate RequestSeen(l: Ledger, id: nat) {
    (id != 0 && id <= l.lastExecId) || id in l.requests
  }

  /** The ledgers have room for a new connection and have seen neither its nonce nor its id. */
  predicate CanRemember(l: Ledger, nonce: string, id: nat) {
    |l.nonces| < CONNECTION_MAX && |l.requests| < LEDGER_MAX && nonce !in l.nonces && !RequestSeen(l, id)
  }

  function Remember(l: Ledger, nonce: string, id: nat): Ledger {
    l.(nonces := l.nonces + [nonce], requests := l.requests + [id])
  }

  predicate ValidId(id: nat) {
    1 <= id <= ID_MAX
  }

  function Accept(w: World, s: Session, a: Accepted): World {
    w.(s := s, accepted := w.accepted + [a])
  }

  // ----- Admission of host frames

  function ParseHello(w: World, m: Message): Option<World> {
    var s := w.s;
    if m.Hello? && m.binding == s.identity.binding && m.epoch == 1 && Hex(m.nonce) && ValidId(m.requestId) &&
        m.wire == 1 &&
       !s.link.hasHello && s.link.lastHelloId == 0 && CanRemember(s.ledger, m.nonce, m.requestId) then
      Some(Accept(w, s.(ledger := Remember(s.ledger, m.nonce, m.requestId),
                        identity := s.identity.(hostNonce := m.nonce, attempt := m.attempt),
                        link := s.link.(hasHello := true, lastHelloId := m.requestId, openerId := m.requestId,
                                        lastHostWire := m.wire),
                        gate := s.gate.(epoch := 1)),
                  Accepted(HELLO, m.requestId, m.wire, 1, None, None)))
    else None
  }

  /** The checks that every signed kind passes; a reconnect is exempt from the nonce of the connection. */
  predicate Signed(s: Session, e: Envelope, reconnect: bool) {
    && (reconnect || (s.link.hasHello && e.nonce == s.identity.hostNonce))
    && e.attempt == s.identity.attempt && e.generation == s.identity.generation && e.binding == s.identity.binding
    && e.epoch == s.gate.epoch
    && ValidId(e.wire) && e.authentic && e.wire > s.link.lastHostWire
  }

  function ParseKeyAck(w: World, m: Message): Option<World> {
    var s := w.s;
    if m.KeyAck? && Signed(s, m.envelope, false) && m.replyTo == s.link.bootstrapWire && m.envelope.epoch == 1 &&
       m.envelope.wire == s.link.lastHostWire + 1 then
      Some(Accept(w, s.(link := s.link.(lastHostWire := m.envelope.wire, keyAckWire := m.envelope.wire)),
                  Accepted(KEY_ACK, 0, m.envelope.wire, 1, None, None)))
    else None
  }

  function ParseReconnect(w: World, m: Message): Option<World> {
    var s := w.s;
    if m.Reconnect? && Signed(s, m.envelope, true) && m.envelope.nonce !in s.ledger.nonces && Hex(m.envelope.nonce) &&
       Some(m.ack) == s.gate.digest && Some(m.boundaryId) == s.gate.id && ValidId(m.requestId) &&
       CanRemember(s.ledger, m.envelope.nonce, m.requestId) then
      Some(Accept(w, s.(ledger := Remember(s.ledger, m.envelope.nonce, m.requestId),
                        identity := s.identity.(hostNonce := m.envelope.nonce),
                        link := s.link.(hasHello := true, openerId := m.requestId, lastHostWire := m.envelope.wire),
                        gate := s.gate.(id := None, digest := None)),
                  Accepted(RECONNECT, m.requestId, m.envelope.wire, m.envelope.epoch, Some(m.ack), Some(m.boundaryId))))
    else None
  }

  /** Which of its three meanings an authentic STOP has, if any. */
  function StopKind(s: Session, id: nat): Option<Kind> {
    var life := s.life;
    if life.stopId != 0 then
      if id == life.stopId && life.state == Stopping then Some(STOP_RETRY) else None
    else if RequestSeen(s.ledger, id) || |s.ledger.requests| >= LEDGER_MAX then None
    else if life.state == Terminal || life.frozen then
      if life.lateStopAllowed then Some(LATE_STOP) else None
    else if life.state == Ready then Some(STOP)
    else None
  }

  function Stopped(life: Life, kind: Kind, id: nat): Life {
    match kind
    case STOP => life.(stopId := id, state := Stopping, stopDelivered := life.stopDelivered + 1)
    case LATE_STOP => life.(lateStopAllowed := false)
    case _ => life
  }

  function ParseStop(w: World, m: Message): Option<World> {
    var s := w.s;
    if !(m.Stop? && Signed(s, m.envelope, false) && m.signal == SIGTERM && ValidId(m.requestId)) then None
    else
      var id, wire := m.requestId, m.envelope.wire;
      match StopKind(s, id)
      case None => None
      case Some(kind) =>
        var ledger := if kind == STOP_RETRY then s.ledger else s.ledger.(requests := s.ledger.requests + [id]);
        Some(Accept(w, s.(link := s.link.(lastHostWire := wire), ledger := ledger, life := Stopped(s.life, kind, id)),
                    Accepted(kind, id, wire, s.gate.epoch, None, None)))
  }

  /** At most 64 arguments, a first one that is not empty, and a bounded spelling in all. */
  predicate ValidArgv(argv: seq<seq<byte>>, width: nat) {
    0 < |argv| <= EXEC_ARGUMENTS_MAX && argv[0] != [] && width <= EXEC_ARGV_BYTES_MAX
  }

  /** `now` is the clock behind the checks, from which the job's time runs. */
  function ParseExec(w: World, m: Message, now: nat): Option<World> {
    var s := w.s;
    if m.Exec? && Signed(s, m.envelope, false) && s.life.state == Ready && s.life.stopId == 0 && !w.execBusy &&
       ValidArgv(m.argv, m.argvWidth) && 1 <= m.timeout <= EXEC_TIMEOUT_MAX && ValidId(m.requestId) &&
       !RequestSeen(s.ledger, m.requestId) then
      var ledger, link := s.ledger.(lastExecId := m.requestId), s.link.(lastHostWire := m.envelope.wire);
      Some(Accept(w, s.(ledger := ledger, link := link),
                  Accepted(EXEC, m.requestId, m.envelope.wire, s.gate.epoch, None, None))
           .(execBusy := true, execDeadline := now + m.timeout))
    else None
  }

  // ----- Guest frames

  function Log(w: World, body: Body): World {
    w.(s := w.s.(nextSequence := w.s.nextSequence + 1), sent := w.sent + [Attempted(w.s.nextSequence, body)])
  }

  /** The session takes a number for each of `n` frames of the job. */
  function Logged(w: World, n: nat): World
    decreases n
  {
    if n == 0 then w else Logged(Log(w, ExecFrame), n - 1)
  }

  /** The program's success value for a frame on the channel. */
  predicate Carried(w: World, carried: bool) {
    w.s.link.hasHello && carried
  }

  function Send(w: World, body: Body, carried: bool): World {
    var logged := Log(w, body);
    logged.(s := logged.s.(link := logged.s.link.(outboundFailed := !Carried(w, carried))))
  }

  /** What `append_lifecycle_state` prints. */
  function StateReport(life: Life): Report {
    Reported(life.state, if life.state == Ready then 0 else life.stopId,
             if life.state == Terminal then Some(life.terminal) else None)
  }

  /** What a snapshot prints: the terminal cause comes from the supervisor's record. */
  function SnapshotReport(life: Life, result: Option<Cause>): Report {
    Reported(life.state, if life.state == Ready then 0 else life.stopId,
             if life.state == Terminal then result else None)
  }

  function CurrentSnapshot(w: World, carried: bool): World {
    if w.s.life.state == New then w
    else
      var next := Send(w, Snapshot(SnapshotReport(w.s.life, w.result), w.s.link.openerId), carried);
      if Carried(w, carried) || !w.s.poisoned then next else Fail(next)
  }

  /** The first drawn identifier that was not used before, if the generator lasts that long. */
  function FreshId(draws: seq<string>, used: seq<string>): (id: Option<string>)
    ensures id.Some? ==> id.value !in used
    decreases draws
  {
    if draws == [] then None
    else if draws[0] in used then FreshId(draws[1..], used)
    else Some(draws[0])
  }

  /** The gate after drawing an identifier: an exhausted generator leaves its last draw behind. */
  function Drawn(g: Gate, draws: seq<string>): Gate {
    match FreshId(draws, g.ids)
    case Some(id) => g.(id := Some(id), ids := g.ids + [id])
    case None => if draws == [] then g else g.(id := Some(draws[|draws| - 1]))
  }

  function AckFor(s: Session, id: string, headerBytes: nat, payloadBytes: nat, expected: nat): Ack {
    Ack(id, s.gate.epoch, s.gate.epoch - 1, headerBytes, payloadBytes, expected, s.link.lastHostWire,
        s.nextSequence, StateReport(s.life), s.link.openerId, s.identity.hostNonce)
  }

  /** Whether a boundary can be acknowledged at all. */
  predicate Acknowledges(s: Session, headerBytes: nat, payloadBytes: nat, expected: nat, draws: seq<string>) {
    && Discardable(headerBytes, payloadBytes, expected) && |s.gate.ids| < CONNECTION_MAX
    && FreshId(draws, s.gate.ids).Some? && s.life.state != New
  }

  function SendBoundary(w: World, headerBytes: nat, payloadBytes: nat, expected: nat, draws: seq<string>): World {
    var s := w.s;
    if Acknowledges(s, headerBytes, payloadBytes, expected, draws) then
      var ack := AckFor(s, FreshId(draws, s.gate.ids).value, headerBytes, payloadBytes, expected);
      var logged := Log(w, Boundary(ack));
      logged.(s := logged.s.(gate := Drawn(s.gate, draws).(digest := Some(ack))))
    else
      var logged := Log(w, Abandoned);
      if Discardable(headerBytes, payloadBytes, expected) && |s.gate.ids| < CONNECTION_MAX then
        logged.(s := logged.s.(gate := Drawn(s.gate, draws)))
      else logged
  }

  /** The connection is gone; `opens` says whether this is a peer boundary that opens an epoch. */
  function Disconnected(w: World, r: Reader, opens: bool): World {
    var s := w.s;
    w.(s := s.(reader := Cleared(r), link := s.link.(hasHello := false, outboundFailed := false),
               life := s.life.(lateStopAllowed := false),
               gate := if opens then s.gate.(epoch := s.gate.epoch + 1) else s.gate))
  }

  /** `r` is the reader as read(2) found it; `taken` says whether the console took the line. */
  function ConnectionLost(w: World, r: Reader, draws: seq<string>, taken: bool): World {
    var opens := r.connected && w.s.link.keyAckWire != 0;
    var t := Disconnected(w, r, opens);
    if opens then
      var next := SendBoundary(t, |r.header|, |r.payload|, r.expected, draws);
      if Acknowledges(t.s, |r.header|, |r.payload|, r.expected, draws) && taken then next
      else next.(s := next.s.(poisoned := true))
    else t
  }

  // ----- One turn of the pump

  /** Everything the environment decides in one turn of the pump. */
  datatype Input = Input(polls: seq<Poll>, message: Message, draws: seq<string>, taken: bool, carried: bool,
                         expired: bool, now: nat)

  function ParseOpening(w: World, m: Message): Option<World> {
    if w.s.link.keyAckWire != 0 then ParseReconnect(w, m) else ParseHello(w, m)
  }

  function ParseRequest(w: World, m: Message, now: nat): Option<World> {
    var stopped := ParseStop(w, m);
    if stopped.Some? then stopped else ParseExec(w, m, now)
  }

  /** What a complete frame does. */
  function Admit(w: World, i: Input): World {
    if w.s.link.outboundFailed then Poison(w)
    else if !w.s.link.hasHello then
      match ParseOpening(w, i.message)
      case None => Poison(w)
      case Some(next) => CurrentSnapshot(next, i.carried)
    else
      match ParseRequest(w, i.message, i.now)
      case None => Poison(w)
      case Some(next) => next
  }

  /** What the pump does once the reader has answered. */
  function React(w: World, outcome: Outcome, before: Reader, i: Input): World {
    match outcome
    case PeerClosed => ConnectionLost(w, before, i.draws, i.taken)
    case Frame(_) => Admit(w, i)
    case Reject => Poison(w)
    case _ => if w.s.link.outboundFailed && i.expired then Poison(w) else w
  }

  function Pump(w: World, i: Input): World {
    var (reader, outcome) := Called(w.s.reader, i.polls);
    React(w.(s := w.s.(reader := reader)), outcome, BeforeClose(w.s.reader, i.polls), i)
  }

  // ----- Runs

  datatype Event =
    | OpenWith(polls: seq<Poll>, message: Message)
    | SendBootstrap(generation: string, carried: bool)
    | Authenticate(sentAt: nat, now: nat, polls: seq<Poll>, message: Message)
    | Commit(verified: bool, carried: bool)
    | PumpTurn(input: Input)
    | ExecSends
    | ExecEnds
    | MainExits(cause: Cause)
    | Finish(carried: bool)

  function Open(w: World, polls: seq<Poll>, m: Message): World {
    var (reader, outcome) := Called(w.s.reader, polls);
    var t := w.(s := w.s.(reader := reader));
    match outcome
    case Frame(_) => (match ParseHello(t, m) case Some(next) => next case None => Poison(t))
    case PeerClosed => if BeforeClose(w.s.reader, polls).connected then Poison(t) else t
    case Reject => Poison(t)
    case _ => t
  }

  function BootstrapSent(w: World, generation: string, carried: bool): World {
    var s := w.s;
    var t := w.(s := s.(identity := s.identity.(generation := generation),
        link := s.link.(bootstrapWire := s.nextSequence)));
    var next := Send(t, Bootstrap(generation, s.link.lastHelloId), carried);
    if Carried(t, carried) then next else Fail(next)
  }

  /** What the exchange does once the reader has answered. */
  function KeyAnswered(w: World, outcome: Outcome, m: Message): World {
    match outcome
    case Frame(_) => (match ParseKeyAck(w, m) case Some(next) => next case None => Fail(w))
    case PeerClosed => Fail(w)
    case Reject => Fail(w)
    case _ => w
  }

  /** One turn of the exchange, which ends five seconds after the bootstrap went out. */
  function Authenticated(w: World, sentAt: nat, now: nat, polls: seq<Poll>, m: Message): World {
    if now >= sentAt + EXCHANGE_MILLIS then Fail(w)
    else
      var (reader, outcome) := Called(w.s.reader, polls);
      KeyAnswered(w.(s := w.s.(reader := reader)), outcome, m)
  }

  function Committed(w: World, verified: bool, carried: bool): World {
    var t := w.(s := w.s.(life := w.s.life.(state := Ready)));
    if verified then Send(t, ReadyNotice(w.s.link.keyAckWire), carried) else Log(t, Abandoned)
  }

  /** The main workload is reaped; without a STOP its cause is frozen. */
  function MainExited(w: World, cause: Cause): World {
    var t := w.(result := Some(cause));
    var s := w.s;
    if s.life.stopId != 0 then t
    else t.(s := s.(life := s.life.(frozen := true, lateStopAllowed := s.link.hasHello, terminal := cause)),
            frozenEpoch := s.gate.epoch)
  }

  function Finished(w: World, carried: bool): World
    requires w.result.Some?
  {
    var s := w.s;
    var t := w.(s := s.(life := s.life.(state := Terminal, terminal := w.result.value)));
    if s.link.hasHello then Send(t, TerminalNotice(Reported(Terminal, s.life.stopId, w.result)), carried) else t
  }

  /** The supervisor pumps from READY on, but not while a frozen natural exit is torn down. */
  predicate PumpEnabled(life: Life) {
    life.state != New && (!life.frozen || life.state == Terminal)
  }

  /** The steps that the supervisor can take; any other event finds nothing to do. */
  predicate Enabled(w: World, e: Event) {
    var s := w.s;
    !w.failed &&
    match e
    case OpenWith(_, _) => s.link.lastHelloId == 0
    case SendBootstrap(_, _) => s.link.lastHelloId != 0 && s.link.bootstrapWire == 0
    case Authenticate(_, _, _, _) => s.link.bootstrapWire != 0 && s.link.keyAckWire == 0
    case Commit(_, _) => s.link.keyAckWire != 0 && s.life.state == New
    case PumpTurn(_) => PumpEnabled(s.life)
    case ExecSends => w.execBusy
    case ExecEnds => w.execBusy
    case MainExits(_) => (s.life.state == Ready || s.life.state == Stopping) && w.result == None
    case Finish(_) => (s.life.state == Ready || s.life.state == Stopping) && w.result.Some?
  }

  function Step(w: World, e: Event): World {
    if !Enabled(w, e) then w
    else match e
      case OpenWith(polls, m) => Open(w, polls, m)
      case SendBootstrap(generation, carried) => BootstrapSent(w, generation, carried)
      case Authenticate(sentAt, now, polls, m) => Authenticated(w, sentAt, now, polls, m)
      case Commit(verified, carried) => Committed(w, verified, carried)
      case PumpTurn(input) => Pump(w, input)
      case ExecSends => Log(w, ExecFrame)
      case ExecEnds => w.(execBusy := false)
      case MainExits(cause) => MainExited(w, cause)
      case Finish(carried) => Finished(w, carried)
  }

  function Run(w: World, events: seq<Event>): World
    decreases events
  {
    if events == [] then w else Run(Step(w, events[0]), events[1..])
  }

  lemma {:induction false} RunLast(w: World, events: seq<Event>, e: Event)
    ensures Run(w, events + [e]) == Step(Run(w, events), e)
    decreases events
  {
    if events == [] {
      assert [] + [e] == [e] && [e][1..] == [];
    } else {
      assert (events + [e])[1..] == events[1..] + [e];
      RunLast(Step(w, events[0]), events[1..], e);
    }
  }
}
