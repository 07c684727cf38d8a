/** Carrier sessions of the agents on three transports: registration, supersession, revocation and the
    connection gauges, each access to the shared state being one atomic step. */
module Registry {
  import opened Bytes
  import opened Protocol
  import opened Sums

  datatype Transport = Quic | Kcp | Wss

  /** A session's task: registered but not yet in its gauge, serving, leaving its loop; then QUIC and KCP
      unregister first and leave the gauge last, WSS the other way round. */
  datatype Stage = Joined | Serving | Leaving | Unregistered | Uncounted | Gone

  /** `order` numbers the registrations; `revoked` says that the session's cancellation was requested. */
  datatype Session = Session(device: Uuid, transport: Transport, stage: Stage, order: nat, revoked: bool)

  datatype Carriers = Carriers(
    agents: map<Uuid, Uuid>, quic: int, kcp: int, wss: int,
    sessions: map<Uuid, Session>, registrations: nat)

  const NO_CARRIERS := Carriers(map[], 0, 0, 0, map[], 0)

  datatype Step =
    | Join(id: Uuid, device: Uuid, transport: Transport)   // insert into `agents`
    | Count(id: Uuid)
    | Leave(id: Uuid)                                      // the loop ends
    | Unregister(id: Uuid)                                 // remove from `agents` if still its own entry
    | Uncount(id: Uuid)
    | Revoke(device: Uuid)

  /** Whether the session's task still has its entry check before it. */
  predicate MayUnregister(x: Session) {
    x.stage == (if x.transport == Wss then Uncounted else Leaving)
  }

  predicate MayUncount(x: Session) {
    x.stage == (if x.transport == Wss then Leaving else Unregistered)
  }

  predicate Possible(s: Carriers, step: Step) {
    match step
    case Join(id, _, _) => id !in s.sessions
    case Count(id) => id in s.sessions && s.sessions[id].stage == Joined
    case Leave(id) => id in s.sessions && s.sessions[id].stage == Serving
    case Unregister(id) => id in s.sessions && MayUnregister(s.sessions[id])
    case Uncount(id) => id in s.sessions && MayUncount(s.sessions[id])
    case Revoke(_) => true
  }

  function AddGauge(s: Carriers, t: Transport, n: int): Carriers {
    match t
    case Quic => s.(quic := s.quic + n)
    case Kcp => s.(kcp := s.kcp + n)
    case Wss => s.(wss := s.wss + n)
  }

  function WithStage(s: Carriers, id: Uuid, stage: Stage): Carriers
    requires id in s.sessions
  {
    s.(sessions := s.sessions[id := s.sessions[id].(stage := stage)])
  }

  function Next(s: Carriers, step: Step): Carriers
    requires Possible(s, step)
  {
    match step
    case Join(id, device, transport) =>
      s.(agents := s.agents[device := id], registrations := s.registrations + 1,
         sessions := s.sessions[id := Session(device, transport, Joined, s.registrations, false)])
    case Count(id) => AddGauge(WithStage(s, id, Serving), s.sessions[id].transport, 1)
    case Leave(id) => WithStage(s, id, Leaving)
    case Unregister(id) =>
      var x := s.sessions[id];
      var t := WithStage(s, id, if x.transport == Wss then Gone else Unregistered);
      if x.device in s.agents && s.agents[x.device] == id then t.(agents := s.agents - {x.device}) else t
    case Uncount(id) =>
      var x := s.sessions[id];
      AddGauge(WithStage(s, id, if x.transport == Wss then Uncounted else Gone), x.transport, -1)
    case Revoke(device) =>
      if device in s.agents && s.agents[device] in s.sessions then
        var id := s.agents[device];
        s.(agents := s.agents - {device}, sessions := s.sessions[id := s.sessions[id].(revoked := true)])
      else s
  }

  // ---------------------------------------------------------------- invariant

  /** The session has not yet given up its entry by itself. */
  predicate Alive(x: Session) {
    x.stage == Joined || x.stage == Serving || x.stage == Leaving || (x.transport == Wss && x.stage == Uncounted)
  }

  predicate Counted(x: Session) {
    x.stage == Serving || x.stage == Leaving || x.stage == Unregistered
  }

  predicate StageOk(x: Session) {
    (x.stage == Unregistered ==> x.transport != Wss) && (x.stage == Uncounted ==> x.transport == Wss)
  }

  /** `id` is the most recently registered session of its device. */
  ghost predicate Latest(s: Carriers, id: Uuid) {
    && id in s.sessions
    && forall j :: j in s.sessions && j != id && s.sessions[j].device == s.sessions[id].device ==>
         s.sessions[j].order < s.sessions[id].order
  }

  ghost predicate SessionsOk(s: Carriers) {
    && (forall id :: id in s.sessions ==> s.sessions[id].order < s.registrations && StageOk(s.sessions[id]))
    && (forall i, j :: i in s.sessions && j in s.sessions && i != j ==> s.sessions[i].order != s.sessions[j].order)
  }

  /** `agents` holds exactly the most recently registered session of each device, as long as it is alive
      and has not been revoked. */
  ghost predicate EntryOk(s: Carriers, id: Uuid) {
    id in s.sessions ==>
      var x := s.sessions[id];
      (x.device in s.agents && s.agents[x.device] == id) <==> (Latest(s, id) && Alive(x) && !x.revoked)
  }

  ghost predicate AgentsOk(s: Carriers) {
    && (forall d :: d in s.agents ==> s.agents[d] in s.sessions && s.sessions[s.agents[d]].device == d)
    && (forall id :: EntryOk(s, id))
  }

  lemma JoinKeepsEntry(s: Carriers, id: Uuid, device: Uuid, transport: Transport, j: Uuid)
    requires SessionsOk(s) && AgentsOk(s) && Possible(s, Join(id, device, transport))
    ensures EntryOk(Next(s, Join(id, device, transport)), j)
  {
    var t := Next(s, Join(id, device, transport));
    assert EntryOk(s, j);
    if j in s.sessions && j != id {
      if s.sessions[j].device == device {
        assert !Latest(t, j) by {
          assert id in t.sessions && t.sessions[id].order > t.sessions[j].order;
        }
      } else {
        JoinKeepsLatest(s, id, device, transport, j);
      }
    }
  }

  lemma JoinKeepsLatest(s: Carriers, id: Uuid, device: Uuid, transport: Transport, j: Uuid)
    requires Possible(s, Join(id, device, transport)) && j in s.sessions && s.sessions[j].device != device
    ensures Latest(s, j) <==> Latest(Next(s, Join(id, device, transport)), j)
  {
    var t := Next(s, Join(id, device, transport));
    if Latest(t, j) {
      forall k | k in s.sessions && k != j && s.sessions[k].device == s.sessions[j].device
        ensures s.sessions[k].order < s.sessions[j].order
      {
        assert t.sessions[k] == s.sessions[k];
      }
    }
  }

  /** A step that changes one session's stage or revocation only. */
  ghost predicate Touches(s: Carriers, t: Carriers, id: Uuid) {
    && id in s.sessions && id in t.sessions && t.sessions == s.sessions[id := t.sessions[id]]
    && t.sessions[id].device == s.sessions[id].device && t.sessions[id].order == s.sessions[id].order
    && t.sessions[id].transport == s.sessions[id].transport
    && t.registrations == s.registrations
  }

  lemma LatestKept(s: Carriers, t: Carriers, id: Uuid, j: Uuid)
    requires Touches(s, t, id)
    ensures Latest(s, j) <==> Latest(t, j)
  {
    if Latest(s, j) {
      assert Latest(t, j);
    }
    if Latest(t, j) {
      forall k | k in s.sessions && k != j && s.sessions[k].device == s.sessions[j].device
        ensures s.sessions[k].order < s.sessions[j].order
      {
        assert t.sessions[k].device == t.sessions[j].device;
      }
    }
  }

  lemma TouchKeepsEntry(s: Carriers, step: Step, id: Uuid, j: Uuid)
    requires SessionsOk(s) && AgentsOk(s) && Possible(s, step) && !step.Join?
    requires Touches(s, Next(s, step), id)
    requires step.Revoke? || step.id == id
    requires step.Revoke? ==> step.device in s.agents && s.agents[step.device] == id
    ensures EntryOk(Next(s, step), j)
  {
    LatestKept(s, Next(s, step), id, j);
    assert EntryOk(s, j) && EntryOk(s, id);
    hide Latest;
  }

  lemma TouchedSession(s: Carriers, step: Step) returns (id: Uuid)
    requires AgentsOk(s) && Possible(s, step) && !step.Join?
    ensures Next(s, step) == s || (Touches(s, Next(s, step), id) && (step.Revoke? || step.id == id)
                                   && (step.Revoke? ==> step.device in s.agents && s.agents[step.device] == id))
  {
    if step.Revoke? {
      if step.device in s.agents {
        id := s.agents[step.device];
      } else {
        assert Next(s, step) == s;
        id := step.device;
      }
    } else {
      id := step.id;
    }
  }

  lemma StageStaysOk(s: Carriers, step: Step, id: Uuid)
    requires Possible(s, step) && !step.Join? && Touches(s, Next(s, step), id) && StageOk(s.sessions[id])
    requires step.Revoke? || step.id == id
    ensures StageOk(Next(s, step).sessions[id])
  {
  }

  lemma StepKeepsSessions(s: Carriers, step: Step)
    requires SessionsOk(s) && AgentsOk(s) && Possible(s, step)
    ensures SessionsOk(Next(s, step))
  {
    if !step.Join? {
      var id := TouchedSession(s, step);
      hide AgentsOk;
      if Next(s, step) != s {
        StageStaysOk(s, step, id);
        hide Next;
        hide StageOk;
      }
    }
  }

  lemma AgentsAreSessions(s: Carriers, step: Step)
    requires AgentsOk(s) && Possible(s, step)
    ensures var t := Next(s, step);
      forall d :: d in t.agents ==> t.agents[d] in t.sessions && t.sessions[t.agents[d]].device == d
  {
    hide EntryOk;
  }

  lemma StepKeepsAgents(s: Carriers, step: Step)
    requires SessionsOk(s) && AgentsOk(s) && Possible(s, step)
    ensures AgentsOk(Next(s, step))
  {
    AgentsAreSessions(s, step);
    if step.Join? {
      forall j ensures EntryOk(Next(s, step), j) {
        JoinKeepsEntry(s, step.id, step.device, step.transport, j);
      }
    } else {
      var id := TouchedSession(s, step);
      if Next(s, step) != s {
        forall j ensures EntryOk(Next(s, step), j) {
          TouchKeepsEntry(s, step, id, j);
        }
      }
    }
  }

  // ---------------------------------------------------------------- gauges

  function CountedOn(x: Session, t: Transport): nat {
    if x.transport == t && Counted(x) then 1 else 0
  }

  function Marks(sessions: map<Uuid, Session>, f: Session -> nat): map<Uuid, nat> {
    map id | id in sessions :: f(sessions[id])
  }

  ghost function Number(s: Carriers, f: Session -> nat): nat {
    Sum(Marks(s.sessions, f))
  }

  function OnQuic(x: Session): nat { CountedOn(x, Quic) }
  function OnKcp(x: Session): nat { CountedOn(x, Kcp) }
  function OnWss(x: Session): nat { CountedOn(x, Wss) }

  /** Each gauge is the number of that transport's counted sessions. */
  ghost predicate GaugesOk(s: Carriers) {
    s.quic == Number(s, OnQuic) && s.kcp == Number(s, OnKcp) && s.wss == Number(s, OnWss)
  }

  lemma NumberPut(s: Carriers, t: Carriers, id: Uuid, f: Session -> nat)
    requires id in t.sessions && t.sessions == s.sessions[id := t.sessions[id]]
    ensures Number(t, f) == Number(s, f) + f(t.sessions[id]) - (if id in s.sessions then f(s.sessions[id]) else 0)
  {
    assert Marks(t.sessions, f) == Marks(s.sessions, f)[id := f(t.sessions[id])];
    SumPut(Marks(s.sessions, f), id, f(t.sessions[id]));
  }

  /** A step moves the gauges by what it moves its session in or out of the count. */
  lemma GaugesMove(s: Carriers, step: Step, id: Uuid)
    requires Possible(s, step) && !step.Join? && Touches(s, Next(s, step), id) && (step.Revoke? || step.id == id)
    ensures var t, x, y := Next(s, step), s.sessions[id], Next(s, step).sessions[id];
      && t.quic - s.quic == OnQuic(y) - OnQuic(x) && t.kcp - s.kcp == OnKcp(y) - OnKcp(x) && t.wss - s.wss == OnWss(y) - OnWss(x)
  {
  }

  lemma StepKeepsGauges(s: Carriers, step: Step)
    requires GaugesOk(s) && AgentsOk(s) && Possible(s, step)
    ensures GaugesOk(Next(s, step))
  {
    var t := Next(s, step);
    hide AgentsOk;
    hide Number;
    if step.Join? {
      NumberPut(s, t, step.id, OnQuic);
      NumberPut(s, t, step.id, OnKcp);
      NumberPut(s, t, step.id, OnWss);
    } else {
      var id := TouchedSession(s, step);
      if t != s {
        GaugesMove(s, step, id);
        hide Next;
        hide Possible;
        NumberPut(s, t, id, OnQuic);
        NumberPut(s, t, id, OnKcp);
        NumberPut(s, t, id, OnWss);
        hide OnQuic;
        hide OnKcp;
        hide OnWss;
      }
    }
  }

  // ---------------------------------------------------------------- runs

  ghost predicate CarriersOk(s: Carriers) {
    SessionsOk(s) && AgentsOk(s) && GaugesOk(s)
  }

  ghost predicate Run(s: Carriers, steps: seq<Step>, t: Carriers)
    decreases |steps|
  {
    if steps == [] then s == t
    else Possible(s, steps[0]) && Run(Next(s, steps[0]), steps[1..], t)
  }

  ghost predicate Reachable(t: Carriers) {
    exists steps :: Run(NO_CARRIERS, steps, t)
  }

  lemma {:induction false} RunKeepsCarriersOk(s: Carriers, steps: seq<Step>, t: Carriers)
    requires CarriersOk(s) && Run(s, steps, t)
    ensures CarriersOk(t)
    decreases |steps|
  {
    hide SessionsOk;
    hide AgentsOk;
    hide GaugesOk;
    hide Next;
    hide Possible;
    if steps != [] {
      StepKeepsSessions(s, steps[0]);
      StepKeepsAgents(s, steps[0]);
      StepKeepsGauges(s, steps[0]);
      RunKeepsCarriersOk(Next(s, steps[0]), steps[1..], t);
    }
  }

  lemma StartIsOk()
    ensures CarriersOk(NO_CARRIERS)
  {
    var none: map<Uuid, Session> := map[];
    assert Marks(none, OnQuic) == map[] && Marks(none, OnKcp) == map[] && Marks(none, OnWss) == map[];
  }

  lemma ReachableCarriersOk(t: Carriers)
    requires Reachable(t)
    ensures CarriersOk(t)
  {
    var steps :| Run(NO_CARRIERS, steps, t);
    StartIsOk();
    RunKeepsCarriersOk(NO_CARRIERS, steps, t);
  }

  /** Which session a device is reached by: over any sequence of connects, reconnects, disconnects and
      revocations, `agents` has the most recently registered session of the device, exactly while that
      session's task has not ended and nobody revoked it. */
  lemma AgentsHoldTheLatest(t: Carriers, device: Uuid, id: Uuid)
    requires Reachable(t)
    ensures device in t.agents && t.agents[device] == id
       <==> id in t.sessions && t.sessions[id].device == device && !t.sessions[id].revoked
            && (forall j :: j in t.sessions && j != id && t.sessions[j].device == device ==> t.sessions[j].order < t.sessions[id].order)
            && t.sessions[id].stage != Unregistered && t.sessions[id].stage != Gone
  {
    ReachableCarriersOk(t);
    assert EntryOk(t, id);
  }

  predicate Has(s: Carriers, device: Uuid, id: Uuid) {
    device in s.agents && s.agents[device] == id
  }

  /** The steps that take session `id`'s entry for its device away: a newer session of the device, the
      device's revocation, and the session's own end. */
  predicate TakesEntry(step: Step, device: Uuid, id: Uuid) {
    (step.Join? && step.device == device) || step == Revoke(device) || step == Unregister(id)
  }

  lemma EntryStep(s: Carriers, step: Step, device: Uuid, id: Uuid)
    requires Possible(s, step) && id in s.sessions && (Has(s, device, id) ==> s.sessions[id].device == device)
    ensures id in Next(s, step).sessions
    ensures Has(s, device, id) ==> (Has(Next(s, step), device, id) <==> !TakesEntry(step, device, id))
    ensures !Has(s, device, id) ==> !Has(Next(s, step), device, id)
  {
  }

  lemma EntryIsOfItsDevice(s: Carriers, device: Uuid, id: Uuid)
    requires AgentsOk(s)
    ensures Has(s, device, id) ==> id in s.sessions && s.sessions[id].device == device
  {
    assert EntryOk(s, id);
    hide Latest;
  }

  /** How long an entry lasts, exactly: over any run a session keeps its entry if and only if its device did
      not register again and was not revoked, and the session did not end. So the end of another session of
      the device never evicts it, and once gone an entry never comes back. */
  lemma {:induction false} EntryLastsUntil(s: Carriers, steps: seq<Step>, t: Carriers, device: Uuid, id: Uuid)
    requires CarriersOk(s) && Run(s, steps, t) && id in s.sessions
    ensures Has(s, device, id) ==>
              (Has(t, device, id) <==> forall step :: step in steps ==>
                 !(step.Join? && step.device == device) && step != Revoke(device) && step != Unregister(id))
    ensures !Has(s, device, id) ==> !Has(t, device, id)
    decreases |steps|
  {
    hide SessionsOk;
    hide AgentsOk;
    hide GaugesOk;
    hide Next;
    hide Possible;
    hide Has;
    if steps != [] {
      var m := Next(s, steps[0]);
      EntryIsOfItsDevice(s, device, id);
      EntryStep(s, steps[0], device, id);
      StepKeepsSessions(s, steps[0]);
      StepKeepsAgents(s, steps[0]);
      StepKeepsGauges(s, steps[0]);
      EntryLastsUntil(m, steps[1..], t, device, id);
      assert forall step :: step in steps <==> step == steps[0] || step in steps[1..];
    }
  }

  /** Each transport's gauge is the number of its sessions between their increment and their decrement, so
      no decrement takes it below zero. */
  lemma GaugesCountSessions(t: Carriers)
    requires Reachable(t)
    ensures t.quic == Number(t, OnQuic) && t.kcp == Number(t, OnKcp) && t.wss == Number(t, OnWss)
    ensures t.quic >= 0 && t.kcp >= 0 && t.wss >= 0
  {
    ReachableCarriersOk(t);
  }

  // ---------------------------------------------------------------- online agents against the gauges

  predicate Entered(s: Carriers, id: Uuid) {
    id in s.sessions && s.sessions[id].device in s.agents && s.agents[s.sessions[id].device] == id
  }

  function EnteredMark(s: Carriers, id: Uuid): nat { if Entered(s, id) then 1 else 0 }

  /** Entered but not (or no longer) in a gauge; in a gauge but superseded, revoked or unregistered. */
  function AheadMark(s: Carriers, id: Uuid): nat {
    if Entered(s, id) && !Counted(s.sessions[id]) then 1 else 0
  }

  function BehindMark(s: Carriers, id: Uuid): nat {
    if id in s.sessions && Counted(s.sessions[id]) && !Entered(s, id) then 1 else 0
  }

  function EnteredMarks(s: Carriers): map<Uuid, nat> { map id | id in s.sessions :: EnteredMark(s, id) }
  function AheadMarks(s: Carriers): map<Uuid, nat> { map id | id in s.sessions :: AheadMark(s, id) }
  function BehindMarks(s: Carriers): map<Uuid, nat> { map id | id in s.sessions :: BehindMark(s, id) }

  /** Every entry of `agents` is marked once. */
  lemma {:induction false} EntriesAreMarked(agents: map<Uuid, Uuid>, marks: map<Uuid, nat>)
    requires forall d :: d in agents ==> agents[d] in marks && marks[agents[d]] == 1
    requires forall d, e :: d in agents && e in agents && d != e ==> agents[d] != agents[e]
    requires forall id :: id in marks && marks[id] != 0 ==> exists d :: d in agents && agents[d] == id
    ensures Sum(marks) == |agents|
    decreases |agents|
  {
    if agents == map[] {
      AllZero(marks);
    } else {
      var d :| d in agents;
      var id := agents[d];
      SumPut(marks, id, 0);
      var rest := marks[id := 0];
      forall j | j in rest && rest[j] != 0 ensures exists e :: e in agents - {d} && (agents - {d})[e] == j {
        var e :| e in agents && agents[e] == j;
        assert e in agents - {d};
      }
      EntriesAreMarked(agents - {d}, rest);
      assert |agents - {d}| == |agents| - 1 by {
        assert (agents - {d}).Keys == agents.Keys - {d};
        assert |agents| == |agents.Keys| && |agents - {d}| == |(agents - {d}).Keys|;
      }
    }
  }

  function CountedMark(x: Session): nat { if Counted(x) then 1 else 0 }
  function NotQuic(x: Session): nat { OnKcp(x) + OnWss(x) }

  lemma GaugesAddUp(t: Carriers)
    requires GaugesOk(t)
    ensures t.quic + t.kcp + t.wss == Number(t, CountedMark)
  {
    var none := map id | id in t.sessions :: 0;
    AllZero(none);
    SumAdds(Marks(t.sessions, CountedMark), none, Marks(t.sessions, OnQuic), Marks(t.sessions, NotQuic));
    SumAdds(Marks(t.sessions, NotQuic), none, Marks(t.sessions, OnKcp), Marks(t.sessions, OnWss));
  }

  lemma AgentsAreEntered(t: Carriers)
    requires AgentsOk(t)
    ensures |t.agents| == Sum(EnteredMarks(t))
  {
    hide EntryOk;
    forall id | id in EnteredMarks(t) && EnteredMarks(t)[id] != 0 ensures exists d :: d in t.agents && t.agents[d] == id {
      assert t.sessions[id].device in t.agents;
    }
    EntriesAreMarked(t.agents, EnteredMarks(t));
  }

  lemma EnteredOrCounted(t: Carriers)
    ensures Sum(EnteredMarks(t)) + Sum(BehindMarks(t)) == Number(t, CountedMark) + Sum(AheadMarks(t))
  {
    SumAdds(EnteredMarks(t), BehindMarks(t), Marks(t.sessions, CountedMark), AheadMarks(t));
  }

  /** Online agents against the gauges, exactly: the number of agents plus the sessions that are counted
      without an entry is the sum of the gauges plus the sessions that have an entry without being counted.
      So the agent count is at most the sum of the gauges exactly when the latter are not more than the
      former. */
  lemma AgentsAgainstGauges(t: Carriers)
    requires Reachable(t)
    ensures |t.agents| + Sum(BehindMarks(t)) == t.quic + t.kcp + t.wss + Sum(AheadMarks(t))
    ensures |t.agents| <= t.quic + t.kcp + t.wss <==> Sum(AheadMarks(t)) <= Sum(BehindMarks(t))
  {
    hide SessionsOk;
    hide AgentsOk;
    hide GaugesOk;
    ReachableCarriersOk(t);
    GaugesAddUp(t);
    AgentsAreEntered(t);
    EnteredOrCounted(t);
  }

  /** A session between its entry and its gauge: one agent online, all gauges zero. */
  lemma EntryPrecedesGauge(id: Uuid, device: Uuid, transport: Transport)
    ensures exists t :: Reachable(t) && |t.agents| > t.quic + t.kcp + t.wss
  {
    var step := Join(id, device, transport);
    var t := Next(NO_CARRIERS, step);
    assert [step][1..] == [];
    assert Run(t, [], t);
    assert Run(NO_CARRIERS, [step], t);
    assert t.agents.Keys == {device};
    assert |t.agents| == |t.agents.Keys| == 1;
  }

  /** With no session between its entry and its gauge, the agents never outnumber the gauges. */
  lemma AgentsWithinGauges(t: Carriers)
    requires Reachable(t) && forall id :: id in t.sessions ==> !(Entered(t, id) && !Counted(t.sessions[id]))
    ensures |t.agents| <= t.quic + t.kcp + t.wss
  {
    AgentsAgainstGauges(t);
    AllZero(AheadMarks(t));
  }

  // ---------------------------------------------------------------- as code

  class AgentRegistry {
    var agents: map<Uuid, Uuid>
    var quic: int
    var kcp: int
    var wss: int

    // The session tasks.
    ghost var sessions: map<Uuid, Session>
    ghost var registrations: nat

    constructor ()
      ensures Snapshot() == NO_CARRIERS
    {
      agents, quic, kcp, wss := map[], 0, 0, 0;
      sessions, registrations := map[], 0;
    }

    ghost function Snapshot(): Carriers
      reads this
    {
      Carriers(agents, quic, kcp, wss, sessions, registrations)
    }

    method Gauge(transport: Transport, n: int)
      modifies this`quic, this`kcp, this`wss
      ensures Snapshot() == AddGauge(old(Snapshot()), transport, n)
      ensures quic == old(quic) + (if transport == Quic then n else 0)
      ensures kcp == old(kcp) + (if transport == Kcp then n else 0)
      ensures wss == old(wss) + (if transport == Wss then n else 0)
    {
      match transport {
        case Quic => quic := quic + n;
        case Kcp => kcp := kcp + n;
        case Wss => wss := wss + n;
      }
    }

    /** The start of `accept`, `run_stream` and `run_control_socket`. */
    method Enter(id: Uuid, device: Uuid, transport: Transport)
      requires id !in sessions
      modifies this
      ensures Run(old(Snapshot()), [Join(id, device, transport), Count(id)], Snapshot())
      ensures agents == old(agents)[device := id]
      ensures quic == old(quic) + (if transport == Quic then 1 else 0)
      ensures kcp == old(kcp) + (if transport == Kcp then 1 else 0)
      ensures wss == old(wss) + (if transport == Wss then 1 else 0)
    {
      ghost var s := Snapshot();
      agents := agents[device := id];
      sessions := sessions[id := Session(device, transport, Joined, registrations, false)];
      registrations := registrations + 1;
      Gauge(transport, 1);
      sessions := sessions[id := sessions[id].(stage := Serving)];
      TwoSteps(s, Join(id, device, transport), Count(id));
    }

    /** Their end, once the loop is over. */
    method Exit(id: Uuid, device: Uuid, transport: Transport)
      requires id in sessions && sessions[id].stage == Leaving && sessions[id].device == device && sessions[id].transport == transport
      modifies this
      ensures Run(old(Snapshot()), if transport == Wss then [Uncount(id), Unregister(id)] else [Unregister(id), Uncount(id)], Snapshot())
      ensures agents == if device in old(agents) && old(agents)[device] == id then old(agents) - {device} else old(agents)
      ensures quic == old(quic) - (if transport == Quic then 1 else 0)
      ensures kcp == old(kcp) - (if transport == Kcp then 1 else 0)
      ensures wss == old(wss) - (if transport == Wss then 1 else 0)
    {
      ghost var s := Snapshot();
      if transport == Wss {
        Gauge(transport, -1);
        sessions := sessions[id := sessions[id].(stage := Uncounted)];
        Unenter(id, device);
        sessions := sessions[id := sessions[id].(stage := Gone)];
        TwoSteps(s, Uncount(id), Unregister(id));
      } else {
        Unenter(id, device);
        sessions := sessions[id := sessions[id].(stage := Unregistered)];
        Gauge(transport, -1);
        sessions := sessions[id := sessions[id].(stage := Gone)];
        TwoSteps(s, Unregister(id), Uncount(id));
      }
    }

    method Unenter(id: Uuid, device: Uuid)
      modifies this`agents
      ensures agents == if device in old(agents) && old(agents)[device] == id then old(agents) - {device} else old(agents)
    {
      if device in agents && agents[device] == id {
        agents := agents - {device};
      }
    }

    /** `revoke_device` and `delete_device_permanently`: the entry goes and its session is cancelled. */
    method RevokeDevice(device: Uuid) returns (cancelled: Option<Uuid>)
      requires AgentsOk(Snapshot())
      modifies this
      ensures Snapshot() == Next(old(Snapshot()), Revoke(device))
      ensures agents == old(agents) - {device} && quic == old(quic) && kcp == old(kcp) && wss == old(wss)
      ensures cancelled == if device in old(agents) then Some(old(agents)[device]) else None
    {
      if device !in agents { return None; }
      var id := agents[device];
      agents := agents - {device};
      sessions := sessions[id := sessions[id].(revoked := true)];
      cancelled := Some(id);
    }
  }

  lemma {:induction false} TwoSteps(s: Carriers, a: Step, b: Step)
    requires Possible(s, a) && Possible(Next(s, a), b)
    ensures Run(s, [a, b], Next(Next(s, a), b))
  {
    hide Next;
    hide Possible;
    var t := Next(Next(s, a), b);
    assert [a, b][1..] == [b] && [b][1..] == [];
    assert Run(t, [], t);
    assert Run(Next(s, a), [b], t);
  }
}
