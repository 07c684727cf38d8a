/** Stalls of a carrier that need no stuck socket: a stream whose public writer has failed while its public
    peer stays connected, and a stream whose acceptance was ignored. Either stops everything the agent sends
    on the carrier, and once the agent's heartbeat finds no room, everything the server sends as well. What
    ends a stall, and what does not. */
module RelayStall {
  import opened Bytes
  import opened Protocol
  import opened Pipeline
  import opened Relay
  import opened RelayProgress
  import opened RelayRest

  lemma ReachNext(s: State, step: Step, t: State)
    requires Reachable(s) && Possible(s, step) && Next(s, step) == t
    ensures Reachable(t)
  {
    var steps :| Run(INITIAL, steps, s);
    OneStep(s, step);
    RunsJoin(INITIAL, steps, s, [step], t);
  }

  // ---------------------------------------------------------------- what a stall is, and how long it lasts

  /** The server's router holds a frame for the full channel of stream `id`, which nobody will read: the
      stream's answer was ignored, or its public writer has failed and its public peer has not hung up, so
      that the bridge goes on reading. */
  predicate Stall(s: State, id: Uuid) {
    && HasConn(s, id) && HoldsForFull(s.up, id)
    && (|| s.conns[id].server == SUnheard
        || (s.conns[id].server == SBridging && s.up.halves[id].sink == Broken && GoesOn(s.down.halves[id])))
  }

  predicate GoesOn(h: Half) {
    !h.eof && (h.source == Reading || h.source.Holding?)
  }

  /** What ends a stall. Behind a failed writer: the public peer stops sending, or the bridge's idle timeout or
      an error of its reading half. Behind an ignored answer: the client of a web request goes away. The
      timeout of the wait does not: it removes the entry that the router has locked before it lets go of the
      receiver that the router waits for. */
  predicate Ends(server: ServerPhase, step: Step, id: Uuid) {
    if server == SUnheard then step == Handshake(id, Vanish) else step == Down(Hangup(id)) || step == Down(AbortSource(id))
  }

  /** Steps that take something off the agent's carrier or pass it on to a stream. */
  predicate TakesUp(step: Step) {
    match step
    case Down(_) => false
    case Up(st) => st == Fetch || st == Route
    case Handshake(_, h) => TakesAnswer(h)
    case Heart(p) => p == TakePing
  }

  /** All frames a stream's bridge at the server has got or can still take from its channel. */
  function Received(s: State, id: Uuid): seq<CarrierFrame> {
    LocalOf(s, id).up.consumed + LocalOf(s, id).up.queue
  }

  /** A reading half that goes on still does after any step but its peer's hangup and its own abort. */
  lemma GoesOnStill(d: Dir, st: DirStep, id: Uuid)
    requires Enabled(d, st) && st != Hangup(id) && st != AbortSource(id) && id in d.halves
    requires HalfOk(d.halves[id], OnWay(d, id), id) && GoesOn(d.halves[id])
    ensures id in Apply(d, st).halves && GoesOn(Apply(d, st).halves[id])
  {
  }

  lemma UpStaysFull(d: Dir, st: DirStep, id: Uuid, j: Uuid)
    requires Enabled(d, st) && HoldsForFull(d, id)
    requires d.halves[id].sink == Unstarted || d.halves[id].sink == Broken
    ensures st != Fetch && st != Route
    ensures HoldsForFull(Apply(d, st), id) && Apply(d, st).hand == d.hand && d.flight <= Apply(d, st).flight
    ensures Apply(d, st).halves[id].sink == d.halves[id].sink
    ensures j in d.halves ==> j in Apply(d, st).halves
    ensures j in d.halves ==>
              Apply(d, st).halves[j].consumed + Apply(d, st).halves[j].queue == d.halves[j].consumed + d.halves[j].queue
  {
  }

  /** What one step leaves of a stall. */
  ghost predicate Unmoved(s: State, t: State, j: Uuid) {
    && t.up.hand == s.up.hand && s.up.flight <= t.up.flight
    && (HasConn(s, j) ==> HasConn(t, j) && Received(t, j) <= Received(s, j))
  }

  /** From `s` to `t` the stall behind `id` goes on, for the same reason. */
  predicate GoesOnStalled(s: State, t: State, id: Uuid) {
    Stall(t, id) && id in s.conns && t.conns[id].server == s.conns[id].server
  }

  lemma DataStall(s: State, step: Step, id: Uuid, j: Uuid)
    requires RelayOk(s) && Stall(s, id) && Possible(s, step) && !Ends(s.conns[id].server, step, id) && (step.Down? || step.Up?)
    ensures GoesOnStalled(s, Next(s, step), id) && !TakesUp(step) && Unmoved(s, Next(s, step), j)
  {
    assert ConnOk(s, id);
    if step.Up? {
      UpStaysFull(s.up, step.s, id, j);
    } else {
      StepKeepsPhase(s.down, step.s, id);
      assert HasConn(s, j) ==> j in Apply(s.down, step.s).halves;
      if s.conns[id].server == SBridging {
        GoesOnStill(s.down, step.s, id);
      }
    }
  }

  lemma PulseStall(s: State, p: Pulse, id: Uuid, j: Uuid)
    requires Stall(s, id) && PulseAllows(s, p)
    ensures GoesOnStalled(s, Beaten(s, p), id) && p != TakePing && Unmoved(s, Beaten(s, p), j)
  {
  }

  /** The handshake steps a stalled stream itself can still take leave it stalled. */
  lemma LocalStall(l: Local, h: Shake, opens: nat, acks: nat, naks: nat)
    requires LocalAllows(l, h) && h != Accept && h != Timeout && h != Vanish && !TakesAnswer(h) && LocalOk(l, opens, acks, naks)
    requires l.up.receiver == Listening
    requires l.conn.server == SUnheard || (l.conn.server == SBridging && l.up.sink == Broken && GoesOn(l.down))
    ensures var m := LocalNext(l, h);
      && m.conn.server == l.conn.server && m.up.receiver == Listening && m.up.queue == l.up.queue && m.up.sink == l.up.sink
      && (l.conn.server == SBridging ==> GoesOn(m.down))
  {
  }

  lemma LocalReceives(l: Local, h: Shake)
    requires LocalAllows(l, h) && h != Accept
    ensures LocalNext(l, h).up.consumed + LocalNext(l, h).up.queue <= l.up.consumed + l.up.queue
  {
  }

  /** With a frame in the router's hand, a handshake step leaves the agent's carrier as it is. */
  lemma ShakeCarrier(s: State, i: Uuid, h: Shake)
    requires Possible(s, Handshake(i, h)) && s.up.hand.Some?
    ensures !TakesAnswer(h) && Next(s, Handshake(i, h)).up.hand == s.up.hand && s.up.flight <= Next(s, Handshake(i, h)).up.flight
  {
  }

  /** The timeout of the stalled wait cannot remove the entry, and a bridge never times out this way. */
  lemma NoTimeout(s: State, id: Uuid)
    requires ConnOk(s, id) && Stall(s, id)
    ensures Locked(s, id, true) && !Possible(s, Handshake(id, Timeout))
    ensures s.conns[id].server == SBridging ==> !Possible(s, Handshake(id, Vanish))
  {
  }

  lemma ShakeStall(s: State, i: Uuid, h: Shake, id: Uuid, j: Uuid)
    requires RelayOk(s) && Stall(s, id) && Possible(s, Handshake(i, h)) && !Ends(s.conns[id].server, Handshake(i, h), id)
    ensures GoesOnStalled(s, Next(s, Handshake(i, h)), id) && !TakesAnswer(h) && Unmoved(s, Next(s, Handshake(i, h)), j)
  {
    hide DirOk;
    hide TrafficOk;
    hide LocalOk;
    hide LocalNext;
    hide DownTransfer;
    hide UpTransfer;
    hide InTransit;
    HandshakeResult(s, i, h, id);
    HandshakeResult(s, i, h, j);
    ShakeCarrier(s, i, h);
    assert ConnOk(s, id);
    NoTimeout(s, id);
    hide Next;
    hide Locked;
    if h != Accept {
      assert ConnOk(s, i);
      LocalReceives(LocalOf(s, i), h);
      if i == id {
        LocalStall(LocalOf(s, id), h, InTransit(s.down, Open(id)), InTransit(s.up, Ack(id, true)), InTransit(s.up, Ack(id, false)));
      }
    }
  }

  lemma StallStep(s: State, step: Step, id: Uuid, j: Uuid)
    requires RelayOk(s) && Stall(s, id) && Possible(s, step) && !Ends(s.conns[id].server, step, id)
    ensures GoesOnStalled(s, Next(s, step), id) && !TakesUp(step) && Unmoved(s, Next(s, step), j)
  {
    match step
    case Handshake(i, h) => ShakeStall(s, i, h, id, j);
    case Heart(p) => PulseStall(s, p, id, j);
    case _ => DataStall(s, step, id, j);
  }

  /** Which steps end a stall, exactly: of all that are possible, only the one that gives its stream up. */
  lemma WhatEndsAStall(s: State, step: Step, id: Uuid)
    requires Reachable(s) && Stall(s, id) && Possible(s, step)
    ensures !Stall(Next(s, step), id) <==> Ends(s.conns[id].server, step, id)
  {
    ReachableIsOk(s);
    if Ends(s.conns[id].server, step, id) {
      assert ConnOk(s, id);
      hide RelayOk;
      EndingEnds(s, step, id);
    } else {
      StallStep(s, step, id, id);
    }
  }

  lemma EndingEnds(s: State, step: Step, id: Uuid)
    requires ConnOk(s, id) && Stall(s, id) && Possible(s, step) && Ends(s.conns[id].server, step, id)
    ensures !Stall(Next(s, step), id)
  {
  }

  /** A stall lasts: in every run in which nothing gives its stream up, the stall is still there at the end,
      nothing was taken off the agent's carrier, no answer was read, and no stream got another frame. */
  lemma {:induction false} StallLasts(s: State, steps: seq<Step>, t: State, id: Uuid, j: Uuid)
    requires RelayOk(s) && Stall(s, id) && Run(s, steps, t)
    requires forall step :: step in steps ==> !Ends(s.conns[id].server, step, id)
    ensures GoesOnStalled(s, t, id) && (forall step :: step in steps ==> !TakesUp(step)) && Unmoved(s, t, j)
    decreases |steps|
  {
    if steps != [] {
      StallStep(s, steps[0], id, j);
      StepKeepsRelayOk(s, steps[0]);
      StallLasts(Next(s, steps[0]), steps[1..], t, id, j);
    }
  }

  /** A stall blocks the agent's carrier for every stream, from any reachable one on and for as long as
      nothing gives its stream up. A stall behind an ignored answer outlasts its wait: without a client of a
      web request going away it lasts as long as the carrier. */
  lemma {:induction false} StallBlocksEveryStream(s: State, steps: seq<Step>, t: State, id: Uuid, other: Uuid)
    requires Reachable(s) && Stall(s, id) && Run(s, steps, t) && other in s.conns
    requires forall step :: step in steps ==> !Ends(s.conns[id].server, step, id)
    ensures Stall(t, id) && (forall step :: step in steps ==> !TakesUp(step))
    ensures t.up.hand == s.up.hand && s.up.flight <= t.up.flight && Received(t, other) <= Received(s, other)
  {
    ReachableIsOk(s);
    StallLasts(s, steps, t, id, other);
  }

  // ---------------------------------------------------------------- the other direction

  /** The agent's reader waits to send its heartbeat, and the outbound channel is full. */
  predicate Jam(s: State) {
    s.pinging && |s.up.chan| == CHANNEL_SLOTS
  }

  /** Steps that take something off the server's carrier. */
  predicate TakesDown(step: Step) {
    match step
    case Down(st) => st == Fetch
    case Up(_) => false
    case Handshake(_, h) => h == TakeOpen
    case Heart(p) => p == TakePong
  }

  /** Which steps end a jam, exactly: only the carrier taking a message. */
  lemma WhatEndsAJam(s: State, step: Step)
    requires Jam(s) && Possible(s, step)
    ensures !Jam(Next(s, step)) <==> step == Up(TakeFrame)
    ensures !TakesDown(step) && (step != Up(TakeFrame) ==> s.down.flight <= Next(s, step).down.flight)
  {
    hide LocalNext;
    hide LocalAllows;
  }

  /** A jam lasts as long as the agent's carrier takes nothing, and for that long the agent reads nothing. */
  lemma {:induction false} JamHoldsTheReader(s: State, steps: seq<Step>, t: State)
    requires Jam(s) && Run(s, steps, t) && (forall step :: step in steps ==> step != Up(TakeFrame))
    ensures Jam(t) && (forall step :: step in steps ==> !TakesDown(step)) && s.down.flight <= t.down.flight
    decreases |steps|
  {
    hide Possible;
    hide Next;
    if steps != [] {
      assert steps[0] in steps;
      WhatEndsAJam(s, steps[0]);
      assert forall step :: step in steps[1..] ==> step in steps;
      JamHoldsTheReader(Next(s, steps[0]), steps[1..], t);
    }
  }

  /** A stall with a jam stops both directions: in every run in which nothing gives the stalled stream up and
      the agent's carrier takes nothing more, neither end takes anything off its carrier. */
  lemma {:induction false} StallStopsBothDirections(s: State, steps: seq<Step>, t: State, id: Uuid)
    requires Reachable(s) && Stall(s, id) && Jam(s) && Run(s, steps, t)
    requires forall step :: step in steps ==> !Ends(s.conns[id].server, step, id) && step != Up(TakeFrame)
    ensures Stall(t, id) && Jam(t) && (forall step :: step in steps ==> !TakesUp(step) && !TakesDown(step))
  {
    ReachableIsOk(s);
    StallLasts(s, steps, t, id, id);
    JamHoldsTheReader(s, steps, t);
  }

  // ---------------------------------------------------------------- the way out

  /** Once the stream's receiver is gone, a frame for it no longer waits. */
  lemma DroppedCanRoute(s: State, id: Uuid)
    requires HasConn(s, id) && s.up.halves[id].receiver == Dropped && s.up.hand.Some? && s.up.hand.value.id == id
    ensures Possible(s, Up(Route)) && Next(s, Up(Route)).up.hand == None
  {
  }

  lemma BridgeCanEnd(s: State, id: Uuid)
    requires Stall(s, id) && s.conns[id].server == SBridging
    ensures Possible(s, Down(AbortSource(id)))
    ensures var s' := Next(s, Down(AbortSource(id)));
      && Possible(s', Handshake(id, ServerDrop))
      && var s'' := Next(s', Handshake(id, ServerDrop));
      && HasConn(s'', id) && s''.up.halves[id].receiver == Dropped && s''.up.hand == s.up.hand
  {
    assert LocalOf(Next(s, Down(AbortSource(id))), id) == LocalOf(s, id).(down := LocalOf(s, id).down.(source := Aborted));
  }

  lemma WaitCanVanish(s: State, id: Uuid)
    requires Stall(s, id) && s.conns[id].server == SUnheard
    ensures Possible(s, Handshake(id, Vanish))
    ensures var s' := Next(s, Handshake(id, Vanish)); HasConn(s', id) && s'.up.halves[id].receiver == Dropped && s'.up.hand == s.up.hand
  {
  }

  /** And giving the stream up does end it: after the idle timeout of a bridge, or when the client of the
      waiting web request goes away, the router can move on. */
  lemma {:induction false} GivingUpEndsTheStall(s: State, id: Uuid)
    requires Stall(s, id)
    ensures var steps := if s.conns[id].server == SUnheard then [Handshake(id, Vanish), Up(Route)]
                         else [Down(AbortSource(id)), Handshake(id, ServerDrop), Up(Route)];
            exists t :: Run(s, steps, t) && t.up.hand == None
  {
    hide Next;
    hide Possible;
    if s.conns[id].server == SUnheard {
      WaitCanVanish(s, id);
      DroppedCanRoute(Next(s, Handshake(id, Vanish)), id);
      TwoSteps(s, Handshake(id, Vanish), Up(Route));
    } else {
      BridgeCanEnd(s, id);
      var s' := Next(s, Down(AbortSource(id)));
      var s'' := Next(s', Handshake(id, ServerDrop));
      DroppedCanRoute(s'', id);
      TwoSteps(s', Handshake(id, ServerDrop), Up(Route));
      OneStep(s, Down(AbortSource(id)));
      RunsJoin(s, [Down(AbortSource(id))], s', [Handshake(id, ServerDrop), Up(Route)], Next(s'', Up(Route)));
      assert [Down(AbortSource(id))] + [Handshake(id, ServerDrop), Up(Route)]
          == [Down(AbortSource(id)), Handshake(id, ServerDrop), Up(Route)];
    }
  }

  /** A bridge whose public peer has hung up. */
  predicate HungUp(s: State, id: Uuid) {
    HasConn(s, id) && (s.conns[id].server == SBridging || s.conns[id].server == SEnded) && s.down.halves[id].eof
  }

  lemma StepKeepsHungUp(s: State, step: Step, id: Uuid)
    requires HungUp(s, id) && Possible(s, step)
    ensures HungUp(Next(s, step), id)
  {
    match step
    case Handshake(i, h) => HandshakeResult(s, i, h, id);
    case Heart(p) =>
    case Down(st) => DataKeepsEof(s.down, st, id);
    case Up(st) => DataKeepsEof(s.up, st, id);
  }

  lemma DataKeepsEof(d: Dir, st: DirStep, id: Uuid)
    requires Enabled(d, st) && id in d.halves
    ensures id in Apply(d, st).halves && (d.halves[id].eof ==> Apply(d, st).halves[id].eof)
  {
  }

  lemma {:induction false} RunKeepsHungUp(s: State, steps: seq<Step>, t: State, id: Uuid)
    requires HungUp(s, id) && Run(s, steps, t)
    ensures HungUp(t, id)
    decreases |steps|
  {
    hide Possible;
    hide Next;
    hide HungUp;
    if steps != [] {
      StepKeepsHungUp(s, steps[0], id);
      RunKeepsHungUp(Next(s, steps[0]), steps[1..], t, id);
    }
  }

  /** So does the public peer's hanging up, by itself: wherever the relay comes to rest after it, with no
      socket, handshake or carrier stuck, no router holds a frame of this stream. */
  lemma {:induction false} HangingUpEndsTheStall(s: State, id: Uuid, steps: seq<Step>, t: State, stuck: set<Obstacle>)
    requires Reachable(s) && Stall(s, id) && s.conns[id].server == SBridging
    requires Possible(s, Down(Hangup(id))) && Run(Next(s, Down(Hangup(id))), steps, t)
    requires RestingUnder(t, stuck) && forall o :: o in stuck ==> o.ServerEntry? || o.AgentEntry?
    ensures t.up.hand.Some? ==> t.up.hand.value.id != id
  {
    hide RestingUnder;
    var s' := Next(s, Down(Hangup(id)));
    assert HungUp(s', id);
    ReachNext(s, Down(Hangup(id)), s');
    hide Possible;
    hide Next;
    RunKeepsHungUp(s', steps, t, id);
    var past :| Run(INITIAL, past, s');
    RunsJoin(INITIAL, past, s', steps, t);
    HungUpIsFree(t, stuck, id);
  }

  lemma HungUpIsFree(t: State, stuck: set<Obstacle>, id: Uuid)
    requires Reachable(t) && HungUp(t, id)
    requires RestingUnder(t, stuck) && forall o :: o in stuck ==> o.ServerEntry? || o.AgentEntry?
    ensures t.up.hand.Some? ==> t.up.hand.value.id != id
  {
    hide RestingUnder;
    RestOrStall(t, stuck);
    WaitsForItsOwn(t, stuck);
    hide Reachable;
  }

  lemma {:induction false} TwoSteps(s: State, a: Step, b: Step)
    requires Possible(s, a) && Possible(Next(s, a), b)
    ensures Run(s, [a, b], Next(Next(s, a), b))
  {
    hide Next;
    hide Possible;
    OneStep(s, a);
    OneStep(Next(s, a), b);
    RunsJoin(s, [a], Next(s, a), [b], Next(Next(s, a), b));
    assert [a] + [b] == [a, b];
  }

  /** With no socket, handshake or carrier stuck, a relay at rest has a waiting router or reader exactly when
      some stream has stalled it, whatever entries are locked. */
  lemma OnlyStallsHoldUp(t: State, stuck: set<Obstacle>)
    requires Reachable(t) && RestingUnder(t, stuck) && forall o :: o in stuck ==> o.ServerEntry? || o.AgentEntry?
    ensures t.down.hand == None && !t.pinging
    ensures t.up.hand.Some? <==> exists id :: Stall(t, id)
  {
    RestOrStall(t, stuck);
    if t.up.hand.Some? {
      var id :| UpStall(t, stuck, id);
      assert Stall(t, id);
    }
  }
}
