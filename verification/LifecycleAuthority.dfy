/** Exactly when the acknowledgement that a reconnect spends is the one of the epoch that it opens. */
module LifecycleAuthority {
  import opened Bytes
  import opened FrameReaders
  import opened Lifecycles
  import opened LifecycleMoves
  import opened LifecycleProofs

  /** An acknowledgement that is still unspent is at most as young as the epoch. */
  ghost predicate NotYounger(w: World) {
    w.s.gate.digest.Some? ==> w.s.gate.digest.value.epoch <= w.s.gate.epoch
  }

  lemma NotYoungerKept(w: World, v: World)
    requires NotYounger(w) && Pending(w) && Moves(w, v)
    ensures NotYounger(v)
  {
  }

  lemma {:induction false} RunNotYounger(w: World, events: seq<Event>)
    requires Invariant(w) && NotYounger(w)
    ensures NotYounger(Run(w, events))
    decreases events
  {
    if events != [] {
      StepKeeps(w, events[0]);
      if Enabled(w, events[0]) {
        StepMoves(w, events[0]);
        NotYoungerKept(w, Step(w, events[0]));
      }
      RunNotYounger(Step(w, events[0]), events[1..]);
    }
  }

  /** Within one epoch the gate stays as the boundary left it, or is spent. */
  ghost predicate SameOrSpent(g: Gate, h: Gate) {
    h.epoch >= g.epoch && (h.epoch == g.epoch ==> h.digest.None? || (h.digest == g.digest && h.id == g.id))
  }

  lemma MoveWithin(w: World, v: World)
    requires Counted(w) && w.s.link.lastHelloId != 0 && Moves(w, v)
    ensures SameOrSpent(w.s.gate, v.s.gate) && v.s.link.lastHelloId != 0
  {
  }

  lemma {:induction false} RunWithin(w: World, events: seq<Event>)
    requires Invariant(w) && w.s.link.lastHelloId != 0
    ensures SameOrSpent(w.s.gate, Run(w, events).s.gate)
    decreases events
  {
    if events != [] {
      var v := Step(w, events[0]);
      StepKeeps(w, events[0]);
      if Enabled(w, events[0]) {
        StepMoves(w, events[0]);
        MoveWithin(w, v);
      }
      RunWithin(v, events[1..]);
    }
  }

  /** A slot and a fresh identifier are left for this boundary. */
  predicate HasRoom(g: Gate, draws: seq<string>) {
    |g.ids| < CONNECTION_MAX && FreshId(draws, g.ids).Some?
  }

  /** What stands beside the unspent acknowledgement after a boundary without room is still its own identifier. */
  predicate KeepsOwnId(g: Gate, draws: seq<string>) {
    g.digest.Some? &&
    if |g.ids| >= CONNECTION_MAX || draws == [] then g.id == Some(g.digest.value.id)
        else draws[|draws| - 1] == g.digest.value.id
  }

  /** The gate behind a boundary. */
  lemma BoundaryGate(w: World, r: Reader, draws: seq<string>, taken: bool)
    requires w.s.life.state != New && w.s.link.keyAckWire != 0 && r.connected && Partial(r)
    ensures var g, h := w.s.gate, ConnectionLost(w, r, draws, taken).s.gate;
            && h.epoch == g.epoch + 1
            && (HasRoom(g, draws) ==>
                 h.digest.Some? && h.digest.value.epoch == h.epoch && h.id == Some(h.digest.value.id))
            && (!HasRoom(g, draws) ==> h.digest == g.digest)
            && (!HasRoom(g, draws) && h.digest.Some? ==> (h.id == Some(h.digest.value.id) <==> KeepsOwnId(g, draws)))
  {
  }

  lemma BoundaryStep(w: World, e: Event)
    requires Invariant(w) && Enabled(w, e) && ClosesTurn(w, e)
    ensures var g, h := w.s.gate, Step(w, e).s.gate;
            && h.epoch == g.epoch + 1
            && (HasRoom(g, e.input.draws) ==>
                 h.digest.Some? && h.digest.value.epoch == h.epoch && h.id == Some(h.digest.value.id))
            && (!HasRoom(g, e.input.draws) ==> h.digest == g.digest)
            && (!HasRoom(g, e.input.draws) && h.digest.Some? ==>
                  (h.id == Some(h.digest.value.id) <==> KeepsOwnId(g, e.input.draws)))
  {
    CalledConnects(w.s.reader, e.input.polls);
    PumpLoses(w, e.input);
    BoundaryGate(w, BeforeClose(w.s.reader, e.input.polls), e.input.draws, e.input.taken);
  }

  /** `e` is a peer boundary in `w`, `mid` opens no further epoch, and then `r` gets a reconnect admitted. */
  ghost predicate ReconnectsBehind(w: World, e: Event, mid: seq<Event>, r: Event) {
    && Enabled(w, e) && ClosesTurn(w, e)
    && var before := Run(Step(w, e), mid);
       var after := Step(before, r);
       && before.s.gate.epoch == w.s.gate.epoch + 1
       && |after.accepted| == |before.accepted| + 1 && after.accepted[|before.accepted|].kind == RECONNECT
  }

  function Reconnect(w: World, e: Event, mid: seq<Event>, r: Event): Accepted
    requires |Step(Run(Step(w, e), mid), r).accepted| > |Run(Step(w, e), mid).accepted|
  {
    Step(Run(Step(w, e), mid), r).accepted[|Run(Step(w, e), mid).accepted|]
  }

  lemma AdmittedReconnect(w: World, r: Event)
    requires Invariant(w) && |Step(w, r).accepted| == |w.accepted| + 1 &&
             Step(w, r).accepted[|w.accepted|].kind == RECONNECT
    ensures var x := Step(w, r).accepted[|w.accepted|];
            x.epoch == w.s.gate.epoch && x.authority.Some? && x.authority == w.s.gate.digest &&
                x.boundary == w.s.gate.id
  {
    StepMoves(w, r);
  }

  /** The boundary leaves the invariant in place behind a connection that got past HELLO. */
  lemma BoundaryKeeps(w: World, e: Event)
    requires Invariant(w) && Enabled(w, e) && ClosesTurn(w, e)
    ensures Invariant(Step(w, e)) && Step(w, e).s.link.lastHelloId != 0
  {
    StepKeeps(w, e);
    StepMoves(w, e);
  }

  /** What the reconnect carries is what the boundary left in the gate. */
  lemma CarriesGate(v: World, mid: seq<Event>, r: Event)
    requires Invariant(v) && v.s.link.lastHelloId != 0 && Run(v, mid).s.gate.epoch == v.s.gate.epoch
    requires var b := Run(v, mid);
            |Step(b, r).accepted| == |b.accepted| + 1 && Step(b, r).accepted[|b.accepted|].kind == RECONNECT
    ensures var x := Step(Run(v, mid), r).accepted[|Run(v, mid).accepted|];
            x.epoch == v.s.gate.epoch && x.authority.Some? && x.authority == v.s.gate.digest &&
                x.boundary == v.s.gate.id
  {
    RunKeeps(v, mid);
    RunWithin(v, mid);
    AdmittedReconnect(Run(v, mid), r);
  }

  /** The same from any world that meets the invariant. */
  lemma ReconnectFrom(w: World, e: Event, mid: seq<Event>, r: Event)
    requires Invariant(w) && NotYounger(w) && ReconnectsBehind(w, e, mid, r)
    ensures var x, g := Reconnect(w, e, mid, r), w.s.gate;
            && x.authority.Some?
            && (x.authority.value.epoch == x.epoch <==> HasRoom(g, e.input.draws))
            && (x.boundary == Some(x.authority.value.id) <==> HasRoom(g, e.input.draws) || KeepsOwnId(g, e.input.draws))
  {
    BoundaryStep(w, e);
    BoundaryKeeps(w, e);
    CarriesGate(Step(w, e), mid, r);
  }

  /**
   The exact conditions, to be read off the world in front of the last peer boundary: the
   acknowledgement that a reconnect spends is that of the epoch that it opens if and only if an
   identifier slot and a fresh identifier were left; and the boundary identifier that it carries is
   that acknowledgement's own if and only if, besides, the failed drawing has left it in place.
   */
  lemma ReconnectAuthorityIff(binding: Binding, events: seq<Event>, e: Event, mid: seq<Event>, r: Event)
    requires ReconnectsBehind(Run(Start(binding), events), e, mid, r)
    ensures var w := Run(Start(binding), events);
            var x, g := Reconnect(w, e, mid, r), w.s.gate;
            && x.authority.Some?
            && (x.authority.value.epoch == x.epoch <==> HasRoom(g, e.input.draws))
            && (x.boundary == Some(x.authority.value.id) <==> HasRoom(g, e.input.draws) || KeepsOwnId(g, e.input.draws))
  {
    Reachable(binding, events);
    RunNotYounger(Start(binding), events);
    ReconnectFrom(Run(Start(binding), events), e, mid, r);
  }

  // ----- Every reconnect has such a boundary

  /** No epoch is opened, and no acknowledgement comes from anywhere else. */
  ghost predicate KeepsGate(w: World, v: World) {
    v.s.gate.digest.Some? ==> w.s.gate.digest.Some? && v.s.gate.epoch == w.s.gate.epoch
  }

  lemma FrameKeepsGate(w: World, i: Input)
    requires PumpEnabled(w.s.life) && Partial(w.s.reader) && w.s.reader.connected
    requires w.s.gate.digest.Some? ==> w.s.link.lastHelloId != 0
    ensures KeepsGate(w, Admit(w, i))
  {
    AdmitMoves(w, i);
  }

  lemma PumpKeepsGate(w: World, i: Input)
    requires PumpEnabled(w.s.life) && Partial(w.s.reader)
    requires w.s.gate.digest.Some? ==> w.s.link.lastHelloId != 0
    requires !(Called(w.s.reader, i.polls).1 == PeerClosed && BeforeClose(w.s.reader, i.polls).connected)
    ensures KeepsGate(w, Pump(w, i))
  {
    CalledConnects(w.s.reader, i.polls);
    var (reader, outcome) := Called(w.s.reader, i.polls);
    if outcome.Frame? {
      FrameKeepsGate(w.(s := w.s.(reader := reader)), i);
    }
  }

  lemma StepKeepsGate(w: World, e: Event)
    requires Invariant(w) && !(Enabled(w, e) && ClosesTurn(w, e))
    ensures KeepsGate(w, Step(w, e))
  {
    if Enabled(w, e) {
      match e
      case PumpTurn(i) => PumpKeepsGate(w, i);
      case _ =>
    }
  }

  /** Event `n` is the boundary that opened the epoch in which the run ends. */
  ghost predicate OpenedBy(w: World, events: seq<Event>, n: nat) {
    && n < |events|
    && var before := Run(w, events[..n]);
       Enabled(before, events[n]) && ClosesTurn(before, events[n]) &&
           Run(w, events).s.gate.epoch == before.s.gate.epoch + 1
  }

  /** Behind every unspent acknowledgement there is the boundary that opened its world's epoch. */
  lemma {:induction false} LastBoundary(binding: Binding, events: seq<Event>) returns (n: nat)
    requires Run(Start(binding), events).s.gate.digest.Some?
    ensures OpenedBy(Start(binding), events, n)
    decreases |events|
  {
    if events == [] {
      assert false;
    } else {
      var before, e := events[..|events| - 1], events[|events| - 1];
      var w := Run(Start(binding), before);
      assert events == before + [e];
      RunLast(Start(binding), before, e);
      Reachable(binding, before);
      if Enabled(w, e) && ClosesTurn(w, e) {
        BoundaryStep(w, e);
        n := |events| - 1;
      } else {
        StepKeepsGate(w, e);
        n := LastBoundary(binding, before);
        assert events[..n] == before[..n];
      }
    }
  }

  lemma {:induction false} RunFrom(w: World, events: seq<Event>, n: nat)
    requires n < |events|
    ensures Run(w, events) == Run(Step(Run(w, events[..n]), events[n]), events[n + 1..])
    decreases events
  {
    if n == 0 {
      assert events[..0] == [];
    } else {
      RunFrom(Step(w, events[0]), events[1..], n - 1);
      assert events[..n][1..] == events[1..][..n - 1] && events[1..][n..] == events[n + 1..];
    }
  }

  /** Every reconnect that is ever admitted is one that the theorem above speaks about. */
  lemma EveryReconnectHasItsBoundary(binding: Binding, events: seq<Event>, r: Event)
    requires var w := Run(Start(binding), events);
             |Step(w, r).accepted| == |w.accepted| + 1 && Step(w, r).accepted[|w.accepted|].kind == RECONNECT
    ensures exists n | 0 <= n < |events| ::
              ReconnectsBehind(Run(Start(binding), events[..n]), events[n], events[n + 1..], r)
  {
    var w := Run(Start(binding), events);
    Reachable(binding, events);
    AdmittedReconnect(w, r);
    var n := LastBoundary(binding, events);
    RunFrom(Start(binding), events, n);
    assert ReconnectsBehind(Run(Start(binding), events[..n]), events[n], events[n + 1..], r);
  }
}
