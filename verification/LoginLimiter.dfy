/** The login rate limiter: a fixed window per client address. Times are in nanoseconds. */
module LoginLimiter {
  import opened Bytes

  const WINDOW: nat := 60_000_000_000
  const MAX_ATTEMPTS: nat := 5

  datatype Window = Window(started: nat, attempts: nat)

  /** What one attempt at time `now` makes of a client's window, and whether it is let through. */
  function Tried(w: Option<Window>, now: nat): (Window, bool) {
    match w
    case None => (Window(now, 1), true)
    case Some(x) =>
      if now > x.started + WINDOW then (Window(now, 1), true)
      else if x.attempts >= MAX_ATTEMPTS then (x, false)
      else (x.(attempts := x.attempts + 1), true)
  }

  class LoginLimiter {
    var windows: map<string, Window>

    constructor ()
      ensures windows == map[]
    {
      windows := map[];
    }

    method LoginAllowed(key: string, now: nat) returns (allowed: bool)
      modifies this
      ensures key !in old(windows) || now > old(windows)[key].started + 60_000_000_000 ==>
                allowed && windows == old(windows)[key := Window(now, 1)]
      ensures key in old(windows) && now <= old(windows)[key].started + 60_000_000_000 && old(windows)[key].attempts < 5 ==>
                allowed && windows == old(windows)[key := Window(old(windows)[key].started, old(windows)[key].attempts + 1)]
      ensures key in old(windows) && now <= old(windows)[key].started + 60_000_000_000 && old(windows)[key].attempts >= 5 ==>
                !allowed && windows == old(windows)
      ensures (windows, allowed) == AfterTry(old(windows), key, now)
    {
      if key in windows {
        var w := windows[key];
        if now > w.started + WINDOW {
          windows := windows[key := Window(now, 1)];
          return true;
        }
        if w.attempts >= MAX_ATTEMPTS {
          assert windows[key := w] == windows;
          return false;
        }
        windows := windows[key := w.(attempts := w.attempts + 1)];
        allowed := true;
      } else {
        windows := windows[key := Window(now, 1)];
        allowed := true;
      }
    }

    /** A successful login clears the client's window. */
    method SignedIn(key: string)
      modifies this
      ensures windows == old(windows) - {key}
    {
      windows := windows - {key};
    }
  }

  function WindowOf(windows: map<string, Window>, key: string): Option<Window> {
    if key in windows then Some(windows[key]) else None
  }

  function AfterTry(windows: map<string, Window>, key: string, now: nat): (map<string, Window>, bool) {
    var r := Tried(WindowOf(windows, key), now);
    (windows[key := r.0], r.1)
  }

  // ---------------------------------------------------------------- calls that overlap

  /** A call that has read the clock, at `at`. Once it has `looked` and found no window of its client it has yet
      to insert one: the lookup and the insertion are separate accesses to the map. It is `overtaken` when
      another call has inserted a window of the same client in between. */
  datatype Pending = Pending(key: string, at: nat, looked: bool, overtaken: bool)

  datatype State = State(windows: map<string, Window>, pending: map<nat, Pending>)

  const NOTHING := State(map[], map[])

  /** `at` is the time of the event. `Begin` reads the clock; `Access` is the access to a present window, or
      finds that there is none. */
  datatype Event =
    | Begin(caller: nat, key: string, at: nat)
    | Access(caller: nat, at: nat)
    | Insert(caller: nat, at: nat)
    | SignIn(key: string, at: nat)

  predicate Can(s: State, e: Event) {
    match e
    case Begin(caller, _, _) => caller !in s.pending
    case Access(caller, _) => caller in s.pending && !s.pending[caller].looked
    case Insert(caller, _) => caller in s.pending && s.pending[caller].looked
    case SignIn(_, _) => true
  }

  function Overtake(pending: map<nat, Pending>, key: string): map<nat, Pending> {
    map c | c in pending :: if pending[c].key == key then pending[c].(overtaken := true) else pending[c]
  }

  /** Whatever a call does, it does by the clock it has read. */
  function After(s: State, e: Event): State
    requires Can(s, e)
  {
    match e
    case Begin(caller, key, at) => s.(pending := s.pending[caller := Pending(key, at, false, false)])
    case Access(caller, _) =>
      var p := s.pending[caller];
      if p.key in s.windows then State(AfterTry(s.windows, p.key, p.at).0, s.pending - {caller})
      else s.(pending := s.pending[caller := p.(looked := true, overtaken := false)])
    case Insert(caller, _) =>
      var p := s.pending[caller];
      State(s.windows[p.key := Window(p.at, 1)], Overtake(s.pending - {caller}, p.key))
    case SignIn(key, _) => s.(windows := s.windows - {key})
  }

  ghost predicate Run(s: State, events: seq<Event>, t: State)
    decreases |events|
  {
    if events == [] then s == t
    else Can(s, events[0]) && Run(After(s, events[0]), events[1..], t)
  }

  /** A call that nothing interrupts is one attempt on the client's window, as `LoginAllowed` makes it. */
  function Call(s: State, caller: nat, key: string, at: nat): seq<Event> {
    [Begin(caller, key, at)] + ([Access(caller, at)] + if key in s.windows then [] else [Insert(caller, at)])
  }

  lemma CallIsOneAttempt(s: State, caller: nat, key: string, at: nat) returns (t: State)
    requires caller !in s.pending
    ensures Run(s, Call(s, caller, key, at), t) && t.windows == AfterTry(s.windows, key, at).0
    ensures Admitted(s, Call(s, caller, key, at), key, at, at) == if AfterTry(s.windows, key, at).1 then 1 else 0
  {
    var e := Call(s, caller, key, at);
    var s1 := After(s, e[0]);
    var s2 := After(s1, e[1]);
    assert e[1..][0] == e[1] && e[1..][1..] == if key in s.windows then [] else [Insert(caller, at)];
    if key in s.windows {
      t := s2;
      assert Run(s2, [], t) && Admitted(s2, [], key, at, at) == 0;
    } else {
      t := After(s2, Insert(caller, at));
      assert [Insert(caller, at)][1..] == [];
      assert Run(t, [], t) && Admitted(t, [], key, at, at) == 0;
      assert Run(s2, [Insert(caller, at)], t) && Admitted(s2, [Insert(caller, at)], key, at, at) == 1;
    }
    assert Run(s1, e[1..], t);
  }

  // ---------------------------------------------------------------- runs

  /** An attempt is let through when its call accesses a present window or inserts a new one. */
  predicate Admits(s: State, e: Event, key: string, from: nat, to: nat) {
    && from <= e.at <= to
    && match e
       case Access(c, _) =>
         c in s.pending && s.pending[c].key == key && key in s.windows && AfterTry(s.windows, key, s.pending[c].at).1
       case Insert(c, _) => c in s.pending && s.pending[c].key == key
       case _ => false
  }

  /** The attempts of `key` let through at times from `from` to `to`. */
  ghost function Admitted(s: State, events: seq<Event>, key: string, from: nat, to: nat): nat
    decreases |events|
  {
    if events == [] || !Can(s, events[0]) then 0
    else (if Admits(s, events[0], key, from, to) then 1 else 0) + Admitted(After(s, events[0]), events[1..], key, from, to)
  }

  predicate Overtaken(s: State, e: Event, key: string) {
    e.Insert? && e.caller in s.pending && s.pending[e.caller].key == key && s.pending[e.caller].overtaken
  }

  /** What one overtaken insertion is worth: it throws a window's count away, and if that window is younger
      than the one it inserts, also brings its end forward by the difference. */
  function Worth(s: State, e: Event, key: string): nat {
    if !Overtaken(s, e, key) then 0
    else if key in s.windows && s.pending[e.caller].at < s.windows[key].started
    then MAX_ATTEMPTS + MAX_ATTEMPTS * Starts(s.windows[key].started - s.pending[e.caller].at)
    else MAX_ATTEMPTS
  }

  /** The worth of all overtaken insertions of `key` from the time `from` on. */
  ghost function Overtakings(s: State, events: seq<Event>, key: string, from: nat): nat
    decreases |events|
  {
    if events == [] || !Can(s, events[0]) then 0
    else (if events[0].at >= from then Worth(s, events[0], key) else 0) + Overtakings(After(s, events[0]), events[1..], key, from)
  }

  predicate InOrder(events: seq<Event>, since: nat)
    decreases |events|
  {
    events == [] || (events[0].at >= since && InOrder(events[1..], events[0].at))
  }

  predicate NoSignIn(events: seq<Event>, key: string, from: nat, to: nat) {
    forall e :: e in events ==> !(e.SignIn? && e.key == key && from <= e.at <= to)
  }

  /** The call acts at most `delay` after it has read the clock. */
  predicate InTime(s: State, e: Event, delay: nat) {
    (e.Access? || e.Insert?) && e.caller in s.pending ==> e.at <= s.pending[e.caller].at + delay
  }

  /** Every call of the run does. */
  ghost predicate Prompt(s: State, events: seq<Event>, delay: nat)
    decreases |events|
  {
    events != [] && Can(s, events[0]) ==> InTime(s, events[0], delay) && Prompt(After(s, events[0]), events[1..], delay)
  }

  predicate WindowsOk(windows: map<string, Window>, now: nat) {
    forall key :: key in windows ==> 1 <= windows[key].attempts <= MAX_ATTEMPTS && windows[key].started <= now
  }

  predicate PendingOk(s: State, now: nat) {
    forall c :: c in s.pending ==>
      var p := s.pending[c]; p.at <= now && (p.looked && !p.overtaken ==> p.key !in s.windows)
  }

  predicate StateOk(s: State, now: nat) {
    WindowsOk(s.windows, now) && PendingOk(s, now)
  }

  lemma StepKeepsStateOk(s: State, e: Event, since: nat)
    requires StateOk(s, since) && e.at >= since && Can(s, e)
    ensures StateOk(After(s, e), e.at)
  {
  }

  lemma {:induction false} RunKeepsStateOk(s: State, events: seq<Event>, t: State, since: nat)
    requires StateOk(s, since) && InOrder(events, since) && Run(s, events, t)
    ensures exists now :: now >= since && StateOk(t, now)
    decreases |events|
  {
    if events != [] {
      StepKeepsStateOk(s, events[0], since);
      RunKeepsStateOk(After(s, events[0]), events[1..], t, events[0].at);
    }
  }

  /** In every run, however its calls overlap and whenever they read the clock, every stored count stays
      between 1 and 5, and a call that found no window and was not overtaken still finds none. */
  lemma {:induction false} CountsStayInRange(events: seq<Event>, t: State)
    requires InOrder(events, 0) && Run(NOTHING, events, t)
    ensures forall key :: key in t.windows ==> 1 <= t.windows[key].attempts <= MAX_ATTEMPTS
    ensures forall c :: c in t.pending && t.pending[c].looked && !t.pending[c].overtaken ==> t.pending[c].key !in t.windows
  {
    RunKeepsStateOk(NOTHING, events, t, 0);
  }

  // ---------------------------------------------------------------- the bound

  /** How many windows can be started within `d` nanoseconds. */
  function Starts(d: nat): nat {
    d / (WINDOW + 1) + 1
  }

  function Ahead(from: nat, to: nat): nat {
    if from <= to then MAX_ATTEMPTS * Starts(to - from) else 0
  }

  /** The most attempts that calls with clocks from `since` to `to` can still get through. */
  function Budget(w: Option<Window>, since: nat, to: nat): nat
    requires w.Some? ==> w.value.attempts <= MAX_ATTEMPTS
  {
    match w
    case None => Ahead(since, to)
    case Some(x) =>
      var end := x.started + WINDOW;
      (if since <= end && since <= to then MAX_ATTEMPTS - x.attempts else 0) + Ahead(if since > end then since else end + 1, to)
  }

  lemma AheadShrinks(a: nat, b: nat, to: nat)
    requires a <= b
    ensures Ahead(b, to) <= Ahead(a, to)
    ensures b >= a + WINDOW + 1 && b <= to ==> Ahead(b, to) + MAX_ATTEMPTS <= Ahead(a, to)
    ensures a <= to ==> Ahead(a, to) >= MAX_ATTEMPTS
  {
  }

  lemma BudgetShrinks(w: Option<Window>, a: nat, b: nat, to: nat)
    requires a <= b && (w.Some? ==> w.value.attempts <= MAX_ATTEMPTS)
    ensures Budget(w, b, to) <= Budget(w, a, to)
  {
    AheadShrinks(a, b, to);
    if w.Some? {
      var end := w.value.started + WINDOW;
      AheadShrinks(if a > end then a else end + 1, if b > end then b else end + 1, to);
    }
    hide Ahead;
  }

  /** One attempt costs one of the budget, if it is let through: whatever clock it goes by. */
  lemma TryCosts(w: Option<Window>, at: nat, since: nat, to: nat)
    requires since <= at <= to && (w.Some? ==> 1 <= w.value.attempts <= MAX_ATTEMPTS)
    ensures var r := Tried(w, at); Budget(Some(r.0), since, to) + (if r.1 then 1 else 0) <= Budget(w, since, to)
  {
    var end := at + WINDOW + 1;
    AheadShrinks(since, at, to);
    AheadShrinks(at, end, to);
    if w.Some? && at > w.value.started + WINDOW {
      var next := w.value.started + WINDOW + 1;
      AheadShrinks(if since > next then since else next, at, to);
    }
    if end > to {
      assert Ahead(end, to) == 0;
    }
    hide Ahead;
  }

  /** Whole minutes, rounded up. */
  function Minutes(length: nat): nat {
    (length + WINDOW - 1) / WINDOW
  }

  function Most(length: nat): nat {
    if length == 0 then MAX_ATTEMPTS else MAX_ATTEMPTS * Minutes(length) + MAX_ATTEMPTS - 1
  }

  lemma StartsWithinMinutes(d: nat)
    requires d > 0
    ensures Starts(d) <= Minutes(d)
  {
  }

  lemma MostGrows(a: nat, b: nat)
    requires a <= b
    ensures Most(a) <= Most(b)
  {
    if 0 < a {
      assert Minutes(a) <= Minutes(b);
    } else if 0 < b {
      StartsWithinMinutes(b);
    }
  }

  /** At the start of an interval, with clocks up to `delay` old. */
  lemma BudgetAtStart(w: Option<Window>, since: nat, from: nat, to: nat)
    requires since <= from <= to && (w.Some? ==> 1 <= w.value.attempts <= MAX_ATTEMPTS && w.value.started < from)
    ensures Budget(w, since, to) <= Most(to - since)
  {
    if to > since {
      StartsWithinMinutes(to - since);
    }
    if w.Some? {
      var end := w.value.started + WINDOW;
      AheadShrinks(since, if since > end then since else end + 1, to);
    }
  }

  function Oldest(now: nat, delay: nat): nat {
    if now >= delay then now - delay else 0
  }

  /** The most attempts that can still be let through up to `to` without an overtaking. */
  function Bound(s: State, key: string, from: nat, to: nat, now: nat, delay: nat): nat
    requires from <= to && WindowsOk(s.windows, now)
  {
    if now < from then Most(to - from + delay)
    else if now > to then 0
    else Budget(WindowOf(s.windows, key), Oldest(now, delay), to)
  }

  lemma BoundShrinks(s: State, key: string, from: nat, to: nat, a: nat, b: nat, delay: nat)
    requires from <= to && a <= b && StateOk(s, a)
    ensures Bound(s, key, from, to, b, delay) <= Bound(s, key, from, to, a, delay)
  {
    if from <= b <= to {
      var w := WindowOf(s.windows, key);
      if a < from {
        BudgetShrinks(w, Oldest(from, delay), Oldest(b, delay), to);
        BudgetAtStart(w, Oldest(from, delay), from, to);
        MostGrows(to - Oldest(from, delay), to - from + delay);
      } else {
        BudgetShrinks(w, Oldest(a, delay), Oldest(b, delay), to);
      }
      hide Most;
    }
  }

  lemma AheadGap(a: nat, b: nat, gap: nat, to: nat)
    requires a <= b <= a + gap
    ensures Ahead(a, to) <= Ahead(b, to) + MAX_ATTEMPTS * Starts(gap)
  {
    if b <= to {
      StartsAdd(to - b, b - a);
      assert (to - b) + (b - a) == to - a;
      StartsGrow(b - a, gap);
    } else if a <= to {
      StartsGrow(to - a, gap);
    }
  }

  lemma StartsGrow(d: nat, e: nat)
    requires d <= e
    ensures Starts(d) <= Starts(e)
  {
  }

  lemma StartsAdd(d: nat, e: nat)
    ensures Starts(d + e) <= Starts(d) + Starts(e)
  {
  }

  /** The window a call inserts over another one. */
  lemma LateInsert(before: Window, at: nat, since: nat, to: nat)
    requires 1 <= before.attempts <= MAX_ATTEMPTS
    ensures 1 + Budget(Some(Window(at, 1)), since, to)
         <= Budget(Some(before), since, to)
            + MAX_ATTEMPTS + if at < before.started then MAX_ATTEMPTS * Starts(before.started - at) else 0
  {
    var end, end' := before.started + WINDOW, at + WINDOW;
    var a, b := if since > end' then since else end' + 1, if since > end then since else end + 1;
    if at < before.started {
      AheadGap(a, b, before.started - at, to);
    } else {
      AheadShrinks(b, a, to);
    }
    hide Ahead;
    hide Starts;
  }

  lemma InsertCosts(s: State, e: Event, key: string, to: nat, delay: nat)
    requires StateOk(s, e.at) && Can(s, e) && e.Insert? && s.pending[e.caller].key == key && e.at <= to && InTime(s, e, delay)
    ensures 1 + Budget(Some(Window(s.pending[e.caller].at, 1)), Oldest(e.at, delay), to)
         <= Budget(WindowOf(s.windows, key), Oldest(e.at, delay), to) + Worth(s, e, key)
  {
    var p := s.pending[e.caller];
    if key in s.windows {
      assert p.overtaken;
      LateInsert(s.windows[key], p.at, Oldest(e.at, delay), to);
    } else {
      TryCosts(None, p.at, Oldest(e.at, delay), to);
    }
    hide Budget;
  }

  /** Every event costs at most what it is worth. */
  lemma StepCosts(s: State, e: Event, key: string, from: nat, to: nat, delay: nat)
    requires from <= to && StateOk(s, e.at) && Can(s, e) && WindowsOk(After(s, e).windows, e.at) && InTime(s, e, delay)
    requires !(e.SignIn? && e.key == key && from <= e.at <= to)
    ensures (if Admits(s, e, key, from, to) then 1 else 0) + Bound(After(s, e), key, from, to, e.at, delay)
         <= Bound(s, key, from, to, e.at, delay) + if e.at >= from then Worth(s, e, key) else 0
  {
    hide Most;
    if from <= e.at <= to {
      match e
      case Access(c, _) =>
        var p := s.pending[c];
        if p.key == key && key in s.windows {
          TryCosts(Some(s.windows[key]), p.at, Oldest(e.at, delay), to);
        }
      case Insert(c, _) =>
        if s.pending[c].key == key {
          InsertCosts(s, e, key, to, delay);
        }
      case _ =>
      hide Budget;
      hide Worth;
    }
  }

  lemma {:induction false} AdmittedWithinBound(s: State, events: seq<Event>, key: string, from: nat, to: nat, now: nat, delay: nat)
    requires from <= to && StateOk(s, now) && InOrder(events, now) && NoSignIn(events, key, from, to) && Prompt(s, events, delay)
    ensures Admitted(s, events, key, from, to) <= Bound(s, key, from, to, now, delay) + Overtakings(s, events, key, from)
    decreases |events|
  {
    hide Bound;
    if events != [] && Can(s, events[0]) {
      var e := events[0];
      StepKeepsStateOk(s, e, now);
      assert e in events && NoSignIn(events[1..], key, from, to);
      AdmittedWithinBound(After(s, e), events[1..], key, from, to, e.at, delay);
      BoundShrinks(s, key, from, to, now, e.at, delay);
      StepCosts(s, e, key, from, to, delay);
    }
  }

  /** The limit for all runs, whatever calls overlap, if each acts at most `delay` after it has read the clock:
      with nondecreasing times, in any closed interval of length L that contains no successful login of a
      client, at most 5 * ceil((L + delay) / 60 s) + 4 of its attempts (5 if L + delay = 0) are let through,
      plus 5 for each insertion that was overtaken by another one of the client, and 5 more for each minute or
      part of one by which the window it overwrites is younger. */
  lemma {:induction false} OverlapsAreBounded(events: seq<Event>, key: string, from: nat, to: nat, delay: nat)
    requires InOrder(events, 0) && from <= to && NoSignIn(events, key, from, to) && Prompt(NOTHING, events, delay)
    ensures Admitted(NOTHING, events, key, from, to) <= Most(to - from + delay) + Overtakings(NOTHING, events, key, from)
  {
    AdmittedWithinBound(NOTHING, events, key, from, to, 0, delay);
    if from == 0 {
      BudgetAtStart(None, 0, 0, to);
      MostGrows(to, to + delay);
    }
  }

  /** No insertion of `key` from the time `from` on was overtaken. */
  ghost predicate NoneOvertaken(s: State, events: seq<Event>, key: string, from: nat)
    decreases |events|
  {
    events != [] && Can(s, events[0]) ==>
      !(events[0].at >= from && Overtaken(s, events[0], key)) && NoneOvertaken(After(s, events[0]), events[1..], key, from)
  }

  lemma {:induction false} NoneOvertakenIsWorthNothing(s: State, events: seq<Event>, key: string, from: nat)
    ensures NoneOvertaken(s, events, key, from) <==> Overtakings(s, events, key, from) == 0
    decreases |events|
  {
    if events != [] && Can(s, events[0]) {
      NoneOvertakenIsWorthNothing(After(s, events[0]), events[1..], key, from);
    }
  }

  /** The limit itself: it holds of every run in which no insertion of the client is overtaken, as when its
      calls do not overlap on a missing window, up to the delay between a call's clock and its access. */
  lemma {:induction false} AttemptsAreLimited(events: seq<Event>, key: string, from: nat, to: nat, delay: nat)
    requires InOrder(events, 0) && from <= to && NoSignIn(events, key, from, to) && Prompt(NOTHING, events, delay)
    requires NoneOvertaken(NOTHING, events, key, from)
    ensures var length := to - from + delay;
      Admitted(NOTHING, events, key, from, to) <= if length == 0 then 5 else 5 * ((length + 59_999_999_999) / 60_000_000_000) + 4
  {
    NoneOvertakenIsWorthNothing(NOTHING, events, key, from);
    OverlapsAreBounded(events, key, from, to, delay);
  }

  // ---------------------------------------------------------------- the bounds are reached

  /** One attempt on a present window by a call that nothing interrupts. */
  function Attempt(key: string, at: nat): seq<Event> {
    [Begin(0, key, at)] + [Access(0, at)]
  }

  function Burst(key: string, at: nat, n: nat): seq<Event> {
    if n == 0 then [] else Attempt(key, at) + Burst(key, at, n - 1)
  }

  /** `n` full windows, each started as soon as the one before has expired. */
  function Bursts(key: string, at: nat, n: nat): seq<Event>
    decreases n
  {
    if n == 0 then [] else Burst(key, at, MAX_ATTEMPTS) + Bursts(key, at + WINDOW + 1, n - 1)
  }

  function Counted(s: State, key: string, started: nat, attempts: nat): State {
    s.(windows := s.windows[key := Window(started, attempts)])
  }

  /** What a run lets through, what its overtakings are worth, and how late its calls act. */
  ghost predicate Yields(s: State, events: seq<Event>, key: string, from: nat, to: nat, delay: nat, admitted: nat, worth: nat) {
    && (exists t :: Run(s, events, t)) && Admitted(s, events, key, from, to) == admitted
    && Overtakings(s, events, key, from) == worth && Prompt(s, events, delay)
  }

  lemma YieldsNothing(s: State, key: string, from: nat, to: nat, delay: nat)
    ensures Yields(s, [], key, from, to, delay, 0, 0)
  {
    assert Run(s, [], s);
  }

  lemma YieldsOne(s: State, e: Event, rest: seq<Event>, key: string, from: nat, to: nat, delay: nat, admitted: nat, worth: nat)
    requires Can(s, e) && InTime(s, e, delay) && Yields(After(s, e), rest, key, from, to, delay, admitted, worth)
    ensures Yields(s, [e] + rest, key, from, to, delay, admitted + (if Admits(s, e, key, from, to) then 1 else 0),
                   worth + (if e.at >= from then Worth(s, e, key) else 0))
  {
    assert ([e] + rest)[1..] == rest;
    var t :| Run(After(s, e), rest, t);
    assert Run(s, [e] + rest, t);
  }

  /** One undisturbed attempt on a present window. */
  lemma AttemptYields(s: State, key: string, at: nat, rest: seq<Event>, from: nat, to: nat, admitted: nat, worth: nat)
    requires key in s.windows && 0 !in s.pending && from <= at <= to && AfterTry(s.windows, key, at).1
    requires Yields(s.(windows := AfterTry(s.windows, key, at).0), rest, key, from, to, 0, admitted, worth)
    ensures Yields(s, Attempt(key, at) + rest, key, from, to, 0, admitted + 1, worth)
  {
    var s1 := After(s, Begin(0, key, at));
    assert s1.pending - {0} == s.pending;
    assert After(s1, Access(0, at)) == s.(windows := AfterTry(s.windows, key, at).0);
    YieldsOne(s1, Access(0, at), rest, key, from, to, 0, admitted, worth);
    YieldsOne(s, Begin(0, key, at), [Access(0, at)] + rest, key, from, to, 0, admitted + 1, worth);
    assert [Begin(0, key, at)] + ([Access(0, at)] + rest) == Attempt(key, at) + rest;
  }

  /** A burst within a window's remaining attempts is let through whole. */
  lemma {:induction false} BurstPasses(s: State, key: string, at: nat, n: nat, rest: seq<Event>, from: nat, to: nat, admitted: nat, worth: nat)
    requires key in s.windows && at <= s.windows[key].started + WINDOW && s.windows[key].attempts + n <= MAX_ATTEMPTS
    requires from <= at <= to && 0 !in s.pending
    requires Yields(Counted(s, key, s.windows[key].started, s.windows[key].attempts + n), rest, key, from, to, 0, admitted, worth)
    ensures Yields(s, Burst(key, at, n) + rest, key, from, to, 0, admitted + n, worth)
    decreases n
  {
    var w := s.windows[key];
    if n == 0 {
      assert Burst(key, at, n) + rest == rest;
      assert Counted(s, key, w.started, w.attempts) == s;
    } else {
      var s' := Counted(s, key, w.started, w.attempts + 1);
      assert Counted(s', key, w.started, w.attempts + 1 + (n - 1)) == Counted(s, key, w.started, w.attempts + n);
      BurstPasses(s', key, at, n - 1, rest, from, to, admitted, worth);
      AttemptYields(s, key, at, Burst(key, at, n - 1) + rest, from, to, admitted + n - 1, worth);
      assert Attempt(key, at) + (Burst(key, at, n - 1) + rest) == Burst(key, at, n) + rest;
    }
  }

  /** The first attempt after a window has expired starts a new one. */
  lemma {:induction false} FreshBurstPasses(s: State, key: string, at: nat, rest: seq<Event>, from: nat, to: nat, admitted: nat, worth: nat)
    requires key in s.windows && at > s.windows[key].started + WINDOW && from <= at <= to && 0 !in s.pending
    requires Yields(Counted(s, key, at, MAX_ATTEMPTS), rest, key, from, to, 0, admitted, worth)
    ensures Yields(s, Burst(key, at, MAX_ATTEMPTS) + rest, key, from, to, 0, admitted + MAX_ATTEMPTS, worth)
  {
    var s' := Counted(s, key, at, 1);
    assert Counted(s', key, at, MAX_ATTEMPTS) == Counted(s, key, at, MAX_ATTEMPTS);
    BurstPasses(s', key, at, MAX_ATTEMPTS - 1, rest, from, to, admitted, worth);
    AttemptYields(s, key, at, Burst(key, at, MAX_ATTEMPTS - 1) + rest, from, to, admitted + MAX_ATTEMPTS - 1, worth);
    assert Attempt(key, at) + (Burst(key, at, MAX_ATTEMPTS - 1) + rest) == Burst(key, at, MAX_ATTEMPTS) + rest;
  }

  lemma {:induction false} BurstsPass(s: State, key: string, at: nat, n: nat, from: nat, to: nat)
    requires key in s.windows && at > s.windows[key].started + WINDOW && 0 !in s.pending
    requires from <= at && (n > 0 ==> at + (n - 1) * (WINDOW + 1) <= to)
    ensures Yields(s, Bursts(key, at, n), key, from, to, 0, MAX_ATTEMPTS * n, 0)
    decreases n
  {
    if n == 0 {
      YieldsNothing(s, key, from, to, 0);
    } else {
      BurstsPass(Counted(s, key, at, MAX_ATTEMPTS), key, at + WINDOW + 1, n - 1, from, to);
      FreshBurstPasses(s, key, at, Bursts(key, at + WINDOW + 1, n - 1), from, to, MAX_ATTEMPTS * (n - 1), 0);
    }
  }

  lemma {:induction false} BurstInOrder(key: string, at: nat, n: nat, rest: seq<Event>, since: nat)
    requires since <= at && InOrder(rest, at)
    ensures InOrder(Burst(key, at, n) + rest, since)
    decreases n
  {
    if n == 0 {
      assert Burst(key, at, n) + rest == rest;
      LaterStart(rest, since, at);
    } else {
      BurstInOrder(key, at, n - 1, rest, at);
      var all := Burst(key, at, n) + rest;
      assert all[0] == Begin(0, key, at) && all[1..][0] == Access(0, at) && all[1..][1..] == Burst(key, at, n - 1) + rest;
      LaterStart(Burst(key, at, n - 1) + rest, at, at);
    }
  }

  lemma {:induction false} LaterStart(events: seq<Event>, a: nat, b: nat)
    requires a <= b && InOrder(events, b)
    ensures InOrder(events, a)
  {
  }

  lemma {:induction false} BurstsInOrder(key: string, at: nat, n: nat, since: nat)
    requires since <= at
    ensures InOrder(Bursts(key, at, n), since)
    decreases n
  {
    if n > 0 {
      BurstsInOrder(key, at + WINDOW + 1, n - 1, at);
      BurstInOrder(key, at, MAX_ATTEMPTS, Bursts(key, at + WINDOW + 1, n - 1), since);
    }
  }

  /** The first call of a client, undisturbed. */
  function First(key: string): seq<Event> {
    [Begin(0, key, 0)] + ([Access(0, 0)] + [Insert(0, 0)])
  }

  lemma FirstYields(key: string, rest: seq<Event>, from: nat, to: nat, delay: nat, admitted: nat, worth: nat)
    requires from > 0 && Yields(State(map[key := Window(0, 1)], map[]), rest, key, from, to, delay, admitted, worth)
    ensures Yields(NOTHING, First(key) + rest, key, from, to, delay, admitted, worth)
  {
    var s1 := After(NOTHING, Begin(0, key, 0));
    var s2 := After(s1, Access(0, 0));
    assert After(s2, Insert(0, 0)) == State(map[key := Window(0, 1)], map[]);
    YieldsOne(s2, Insert(0, 0), rest, key, from, to, delay, admitted, worth);
    YieldsOne(s1, Access(0, 0), [Insert(0, 0)] + rest, key, from, to, delay, admitted, worth);
    YieldsOne(NOTHING, Begin(0, key, 0), [Access(0, 0)] + ([Insert(0, 0)] + rest), key, from, to, delay, admitted, worth);
    assert [Begin(0, key, 0)] + ([Access(0, 0)] + ([Insert(0, 0)] + rest)) == First(key) + rest;
  }

  lemma {:induction false} FirstInOrder(key: string, rest: seq<Event>)
    requires InOrder(rest, 0)
    ensures InOrder(First(key) + rest, 0)
  {
    var all := First(key) + rest;
    assert all[1..][0] == Access(0, 0) && all[1..][1..][0] == Insert(0, 0) && all[1..][1..][1..] == rest;
  }

  /** The limit cannot be improved: for `n` minutes some run without any overtaking or delay lets 5 * n + 4
      attempts through. */
  lemma {:induction false} BoundIsReached(key: string, n: nat) returns (events: seq<Event>)
    requires 1 <= n <= 60_000_000_000
    ensures InOrder(events, 0)
    ensures Yields(NOTHING, events, key, 60_000_000_000, 60_000_000_000 + n * 60_000_000_000, 0, 5 * n + 4, 0)
    ensures Most(n * WINDOW) == 5 * n + 4
  {
    var from, to := WINDOW, WINDOW + n * WINDOW;
    var full := Bursts(key, WINDOW + 1, n);
    var late := Burst(key, WINDOW, MAX_ATTEMPTS - 1) + full;
    events := First(key) + late;
    BurstsInOrder(key, WINDOW + 1, n, WINDOW);
    BurstInOrder(key, WINDOW, MAX_ATTEMPTS - 1, full, 0);
    FirstInOrder(key, late);
    var s := State(map[key := Window(0, 1)], map[]);
    BurstsPass(Counted(s, key, 0, MAX_ATTEMPTS), key, WINDOW + 1, n, from, to);
    BurstPasses(s, key, WINDOW, MAX_ATTEMPTS - 1, full, from, to, MAX_ATTEMPTS * n, 0);
    FirstYields(key, late, from, to, 0, MAX_ATTEMPTS * n + MAX_ATTEMPTS - 1, 0);
    WholeMinutes(n);
  }

  lemma WholeMinutes(n: nat)
    requires n > 0
    ensures Most(n * WINDOW) == MAX_ATTEMPTS * n + MAX_ATTEMPTS - 1
  {
    assert (n * WINDOW + WINDOW - 1) / WINDOW == n;
  }

  // ---------------------------------------------------------------- overlapping first attempts

  /** Calls `i + 1` to `n` of one client look before any of them inserts. */
  function Looks(key: string, at: nat, i: nat, n: nat): seq<Event>
    requires i <= n
    decreases n - i
  {
    if i == n then [] else [Begin(i + 1, key, at)] + ([Access(i + 1, at)] + Looks(key, at, i + 1, n))
  }

  /** Each then inserts its window, and four more attempts use it up. */
  function Rounds(key: string, at: nat, i: nat, n: nat): seq<Event>
    requires i <= n
    decreases n - i
  {
    if i == n then [] else [Insert(i + 1, at)] + (Burst(key, at, MAX_ATTEMPTS - 1) + Rounds(key, at, i + 1, n))
  }

  /** The calls from `i + 1` to `n` have looked. */
  predicate Looked(s: State, key: string, at: nat, i: nat, n: nat) {
    0 !in s.pending && forall c :: i < c <= n ==> c in s.pending && s.pending[c].key == key && s.pending[c].at == at && s.pending[c].looked
  }

  /** An overtaken call's window lets five more attempts through. */
  lemma {:induction false} RoundsPass(s: State, key: string, at: nat, i: nat, n: nat)
    requires i <= n && Looked(s, key, at, i, n)
    requires key in s.windows && s.windows[key].started == at && forall c :: i < c <= n ==> s.pending[c].overtaken
    ensures Yields(s, Rounds(key, at, i, n), key, at, at, 0, MAX_ATTEMPTS * (n - i), MAX_ATTEMPTS * (n - i))
    decreases n - i
  {
    if i == n {
      YieldsNothing(s, key, at, at, 0);
    } else {
      RoundPasses(s, key, at, i, n);
    }
  }

  lemma {:induction false} RoundPasses(s: State, key: string, at: nat, i: nat, n: nat)
    requires i < n && Looked(s, key, at, i, n)
    requires forall c :: i + 1 < c <= n ==> key in s.windows ==> s.pending[c].overtaken
    requires key in s.windows ==> s.windows[key].started == at && s.pending[i + 1].overtaken
    requires key !in s.windows ==> !s.pending[i + 1].overtaken
    ensures Yields(s, Rounds(key, at, i, n), key, at, at, 0, MAX_ATTEMPTS * (n - i),
                   MAX_ATTEMPTS * (if key in s.windows then n - i else n - i - 1))
    decreases n - i, 0
  {
    var s' := After(s, Insert(i + 1, at));
    var full := Counted(s', key, at, MAX_ATTEMPTS);
    RoundsPass(full, key, at, i + 1, n);
    var k := MAX_ATTEMPTS * (n - i - 1);
    BurstPasses(s', key, at, MAX_ATTEMPTS - 1, Rounds(key, at, i + 1, n), at, at, k, k);
    YieldsOne(s, Insert(i + 1, at), Burst(key, at, MAX_ATTEMPTS - 1) + Rounds(key, at, i + 1, n), key, at, at, 0, k + MAX_ATTEMPTS - 1, k);
  }

  ghost predicate AllLooked(s: State, key: string, at: nat, n: nat) {
    s.windows == map[] && Looked(s, key, at, 0, n) && forall c :: c in s.pending ==> !s.pending[c].overtaken
  }

  lemma {:induction false} LooksPass(s: State, key: string, at: nat, i: nat, n: nat, rest: seq<Event>, admitted: nat, worth: nat)
    requires s.windows == map[] && i <= n && Looked(s, key, at, 0, i)
    requires forall c :: c in s.pending ==> c <= i && !s.pending[c].overtaken
    requires forall t: State :: AllLooked(t, key, at, n) ==> Yields(t, rest, key, at, at, 0, admitted, worth)
    ensures Yields(s, Looks(key, at, i, n) + rest, key, at, at, 0, admitted, worth)
    decreases n - i
  {
    hide Yields;
    if i == n {
      assert Looks(key, at, i, n) + rest == rest;
      assert AllLooked(s, key, at, n);
    } else {
      LooksPass(OneLooked(s, key, at, i + 1), key, at, i + 1, n, rest, admitted, worth);
      hide AllLooked;
      hide Looked;
      OneLookPasses(s, key, at, i + 1, Looks(key, at, i + 1, n) + rest, admitted, worth);
      assert [Begin(i + 1, key, at)] + ([Access(i + 1, at)] + (Looks(key, at, i + 1, n) + rest)) == Looks(key, at, i, n) + rest;
    }
  }

  function OneLooked(s: State, key: string, at: nat, c: nat): State {
    s.(pending := s.pending[c := Pending(key, at, true, false)])
  }

  lemma OneLookPasses(s: State, key: string, at: nat, c: nat, rest: seq<Event>, admitted: nat, worth: nat)
    requires s.windows == map[] && c !in s.pending
    requires Yields(OneLooked(s, key, at, c), rest, key, at, at, 0, admitted, worth)
    ensures Yields(s, [Begin(c, key, at)] + ([Access(c, at)] + rest), key, at, at, 0, admitted, worth)
  {
    hide Yields;
    var s1 := After(s, Begin(c, key, at));
    assert After(s1, Access(c, at)) == OneLooked(s, key, at, c);
    YieldsOne(s1, Access(c, at), rest, key, at, at, 0, admitted, worth);
    YieldsOne(s, Begin(c, key, at), [Access(c, at)] + rest, key, at, at, 0, admitted, worth);
  }

  predicate AllAt(events: seq<Event>, at: nat) {
    forall e :: e in events ==> e.at == at
  }

  lemma {:induction false} AllAtInOrder(events: seq<Event>, at: nat, since: nat)
    requires AllAt(events, at) && since <= at
    ensures InOrder(events, since)
    decreases |events|
  {
    if events != [] {
      AllAtInOrder(events[1..], at, at);
    }
  }

  lemma {:induction false} BurstAllAt(key: string, at: nat, n: nat)
    ensures AllAt(Burst(key, at, n), at)
  {
    if n > 0 {
      BurstAllAt(key, at, n - 1);
    }
  }

  lemma {:induction false} LooksAllAt(key: string, at: nat, i: nat, n: nat)
    requires i <= n
    ensures AllAt(Looks(key, at, i, n), at)
    decreases n - i
  {
    if i < n {
      LooksAllAt(key, at, i + 1, n);
    }
  }

  lemma {:induction false} RoundsAllAt(key: string, at: nat, i: nat, n: nat)
    requires i <= n
    ensures AllAt(Rounds(key, at, i, n), at)
    decreases n - i
  {
    if i < n {
      RoundsAllAt(key, at, i + 1, n);
      BurstAllAt(key, at, MAX_ATTEMPTS - 1);
    }
  }

  /** Where first attempts do overlap the limit fails, by as much as the bound for all runs allows: `n` calls
      that look before any of them inserts let 5 * n attempts through at one instant, of which
      5 * (n - 1) are the worth of the overtaken insertions. */
  lemma {:induction false} OverlappingFirstAttempts(key: string, at: nat, n: nat)
    requires n > 0
    ensures InOrder(Looks(key, at, 0, n) + Rounds(key, at, 0, n), 0)
    ensures Yields(NOTHING, Looks(key, at, 0, n) + Rounds(key, at, 0, n), key, at, at, 0,
                   5 * n, 5 * (n - 1))
    ensures Most(0) == 5
  {
    LooksAllAt(key, at, 0, n);
    RoundsAllAt(key, at, 0, n);
    AllAtInOrder(Looks(key, at, 0, n) + Rounds(key, at, 0, n), at, 0);
    forall t: State | AllLooked(t, key, at, n)
      ensures Yields(t, Rounds(key, at, 0, n), key, at, at, 0, MAX_ATTEMPTS * n, MAX_ATTEMPTS * (n - 1))
    {
      RoundPasses(t, key, at, 0, n);
    }
    LooksPass(NOTHING, key, at, 0, n, Rounds(key, at, 0, n), MAX_ATTEMPTS * n, MAX_ATTEMPTS * (n - 1));
  }

  // ---------------------------------------------------------------- stale clocks

  /** Calls `i + 1` to `n` read the clock one window after the other ... */
  function Begins(key: string, i: nat, n: nat): seq<Event>
    requires i <= n
    decreases n - i
  {
    if i == n then [] else [Begin(i + 1, key, (i + 1) * (WINDOW + 1))] + Begins(key, i + 1, n)
  }

  /** ... and all act at once. */
  function Accesses(at: nat, i: nat, n: nat): seq<Event>
    requires i <= n
    decreases n - i
  {
    if i == n then [] else [Access(i + 1, at)] + Accesses(at, i + 1, n)
  }

  predicate Begun(s: State, key: string, i: nat, n: nat) {
    forall c :: i < c <= n ==> c in s.pending && s.pending[c] == Pending(key, c * (WINDOW + 1), false, false)
  }

  lemma {:induction false} AccessesPass(s: State, key: string, i: nat, n: nat)
    requires i <= n && Begun(s, key, i, n) && key in s.windows && s.windows[key].started == i * (WINDOW + 1)
    ensures n > 0 ==> Yields(s, Accesses(n * (WINDOW + 1), i, n), key, n * (WINDOW + 1), n * (WINDOW + 1), (n - 1) * (WINDOW + 1), n - i, 0)
    decreases n - i
  {
    if i == n {
      if n > 0 {
        YieldsNothing(s, key, n * (WINDOW + 1), n * (WINDOW + 1), (n - 1) * (WINDOW + 1));
      }
    } else {
      var at, e := n * (WINDOW + 1), Access(i + 1, n * (WINDOW + 1));
      Later(i + 1, n);
      assert s.pending[i + 1].at > s.windows[key].started + WINDOW;
      AccessesPass(After(s, e), key, i + 1, n);
      YieldsOne(s, e, Accesses(at, i + 1, n), key, at, at, (n - 1) * (WINDOW + 1), n - i - 1, 0);
    }
  }

  lemma Later(i: nat, n: nat)
    requires 1 <= i <= n
    ensures n * (WINDOW + 1) <= i * (WINDOW + 1) + (n - 1) * (WINDOW + 1)
    ensures i * (WINDOW + 1) <= n * (WINDOW + 1)
  {
  }

  lemma {:induction false} BeginsPass(s: State, key: string, i: nat, n: nat)
    requires i <= n && n > 0 && s.windows == map[key := Window(0, 1)] && Begun(s, key, 0, i) && forall c :: c in s.pending ==> c <= i
    ensures Yields(s, Begins(key, i, n) + Accesses(n * (WINDOW + 1), 0, n), key, n * (WINDOW + 1), n * (WINDOW + 1), (n - 1) * (WINDOW + 1), n, 0)
    decreases n - i
  {
    var at := n * (WINDOW + 1);
    if i == n {
      assert Begins(key, i, n) + Accesses(at, 0, n) == Accesses(at, 0, n);
      AccessesPass(s, key, 0, n);
    } else {
      var e := Begin(i + 1, key, (i + 1) * (WINDOW + 1));
      BeginsPass(After(s, e), key, i + 1, n);
      YieldsOne(s, e, Begins(key, i + 1, n) + Accesses(at, 0, n), key, at, at, (n - 1) * (WINDOW + 1), n, 0);
      assert [e] + (Begins(key, i + 1, n) + Accesses(at, 0, n)) == Begins(key, i, n) + Accesses(at, 0, n);
    }
  }

  lemma {:induction false} AccessesInOrder(at: nat, i: nat, n: nat, since: nat)
    requires i <= n && since <= at
    ensures InOrder(Accesses(at, i, n), since)
    decreases n - i
  {
    if i < n {
      AccessesInOrder(at, i + 1, n, at);
    }
  }

  lemma {:induction false} BeginsInOrder(key: string, i: nat, n: nat, since: nat)
    requires i <= n && since <= i * (WINDOW + 1)
    ensures InOrder(Begins(key, i, n) + Accesses(n * (WINDOW + 1), 0, n), since)
    decreases n - i
  {
    var last := Accesses(n * (WINDOW + 1), 0, n);
    if i == n {
      assert Begins(key, i, n) + last == last;
      AccessesInOrder(n * (WINDOW + 1), 0, n, since);
    } else {
      BeginsInOrder(key, i + 1, n, (i + 1) * (WINDOW + 1));
      var all := Begins(key, i, n) + last;
      assert all[0] == Begin(i + 1, key, (i + 1) * (WINDOW + 1)) && all[1..] == Begins(key, i + 1, n) + last;
    }
  }

  /** And the delay counts: calls that nobody overtakes, but that act long after they have read the clock, get
      one attempt through for each minute of their delay, all at one instant. */
  lemma {:induction false} StaleClocksPass(key: string, n: nat) returns (events: seq<Event>)
    requires n > 0
    ensures InOrder(events, 0)
    ensures Yields(NOTHING, events, key, n * 60_000_000_001, n * 60_000_000_001, (n - 1) * 60_000_000_001, n, 0)
  {
    var late := Begins(key, 0, n) + Accesses(n * (WINDOW + 1), 0, n);
    events := First(key) + late;
    BeginsInOrder(key, 0, n, 0);
    FirstInOrder(key, late);
    BeginsPass(State(map[key := Window(0, 1)], map[]), key, 0, n);
    FirstYields(key, late, n * (WINDOW + 1), n * (WINDOW + 1), (n - 1) * (WINDOW + 1), n, 0);
  }
}
