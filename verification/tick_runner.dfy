// The dispatch tick: one runner, one notification listener, and every order in which timers, notifications, dropped
// connections, settled ticks and stops may reach them. A tick's settlement and the runner's reaction to it are one event.
module TickRunner {
  import opened Options

  /* ---- what each event does ---- */

  // `started` and `settled` count ticks.
  datatype Runner = Runner(running: bool, pending: bool, stopped: bool, started: nat, settled: nat)

  const Idle := Runner(false, false, false, 0, 0)

  function Begin(r: Runner): Runner { r.(pending := false, running := true, started := r.started + 1) }

  function Drive(r: Runner): Runner { if r.stopped || r.running then r else Begin(r) }

  function Wake(r: Runner): Runner { if r.stopped then r else Drive(r.(pending := true)) }

  function Settle(r: Runner): Runner {
    if !r.running then r
    else
      var done := r.(running := false, settled := r.settled + 1);
      if done.pending && !done.stopped then Begin(done) else done
  }

  // The listener's session, its coalescing window and its reconnect timer; `sessions` numbers the connections it made.
  datatype Listener = Listener(opening: bool, client: Option<nat>, window: bool, retry: bool, failures: nat, stopped: bool, sessions: nat)

  const Closed := Listener(false, None, false, false, 0, false, 0)

  function Open(l: Listener): Listener { if l.stopped || l.client.Some? then l else l.(opening := true) }

  function Retry(l: Listener): Listener { if l.stopped then l else l.(failures := l.failures + 1, retry := true) }

  predicate Accepts(l: Listener, session: nat, valid: bool) { valid && l.client == Some(session) && !l.stopped }

  function Notified(l: Listener, session: nat, valid: bool): Listener {
    if valid && l.client == Some(session) && !l.window && !l.stopped then l.(window := true) else l
  }

  datatype Event =
    | Start
    | Connected
    | ConnectFailed
    | Notification(session: nat, valid: bool)
    | Dropped(session: nat)
    | WindowCloses
    | RetryFires
    | Interval
    | TickSettles
    | StopListener
    | StopRunner

  datatype Service = Service(runner: Runner, listener: Listener, launched: bool)

  const Fresh := Service(Idle, Closed, false)

  // The listener is started once; an event that cannot happen changes nothing.
  function Next(s: Service, e: Event): Service {
    var l := s.listener;
    match e
    case Start => if s.launched then s else s.(listener := Open(l), launched := true)
    case Connected =>
      if !l.opening then s
      else if l.stopped then s.(listener := l.(opening := false, sessions := l.sessions + 1))
      else s.(listener := l.(opening := false, client := Some(l.sessions), sessions := l.sessions + 1, failures := 0))
    case ConnectFailed => if !l.opening then s else s.(listener := Retry(l.(opening := false)))
    case Notification(session, valid) => s.(listener := Notified(l, session, valid))
    case Dropped(session) => if l.client != Some(session) then s else s.(listener := Retry(l.(client := None)))
    case WindowCloses => if !l.window then s else Service(if l.stopped then s.runner else Wake(s.runner), l.(window := false), s.launched)
    case RetryFires => if !l.retry then s else s.(listener := Open(l.(retry := false)))
    case Interval => s.(runner := Drive(s.runner))
    case TickSettles => s.(runner := Settle(s.runner))
    case StopListener => s.(listener := l.(stopped := true, window := false, retry := false, client := None))
    case StopRunner => s.(runner := s.runner.(stopped := true))
  }

  function Run(s: Service, events: seq<Event>): Service {
    if |events| == 0 then s else Next(Run(s, events[..|events| - 1]), events[|events| - 1])
  }

  /* ---- what always holds ---- */

  predicate Sound(s: Service) {
    var r, l := s.runner, s.listener;
    && r.started == r.settled + (if r.running then 1 else 0)
    && (r.pending ==> r.running || r.stopped)
    && (if l.opening then 1 else 0) + (if l.client.Some? then 1 else 0) + (if l.retry then 1 else 0) <= 1
    && (l.client.Some? ==> l.client.value < l.sessions)
    && (l.opening || l.client.Some? || l.retry ==> s.launched)
    && (l.stopped ==> !l.window && !l.retry && l.client.None?)
    && (s.launched && !l.stopped ==> l.opening || l.client.Some? || l.retry)
  }

  lemma NextSound(s: Service, e: Event)
    requires Sound(s)
    ensures Sound(Next(s, e))
  {}

  // In every order of events at most one tick is in flight, at most one connection attempt, session or reconnect timer
  // exists at a time, and a listener that was started and not stopped always has exactly one of them.
  lemma {:induction false} RunSound(events: seq<Event>)
    ensures Sound(Run(Fresh, events))
  {
    if |events| > 0 {
      RunSound(events[..|events| - 1]);
      NextSound(Run(Fresh, events[..|events| - 1]), events[|events| - 1]);
    }
  }

  lemma {:induction false} RunSplit(s: Service, before: seq<Event>, after: seq<Event>)
    ensures Run(s, before + after) == Run(Run(s, before), after)
  {
    if |after| == 0 {
      assert before + after == before;
    } else {
      RunSplit(s, before, after[..|after| - 1]);
      assert (before + after)[..|before + after| - 1] == before + after[..|after| - 1];
    }
  }

  // After the runner is stopped no tick starts any more, whatever happens.
  lemma {:induction false} NoTickAfterStop(s: Service, events: seq<Event>)
    requires s.runner.stopped
    ensures Run(s, events).runner.stopped && Run(s, events).runner.started == s.runner.started
  {
    if |events| > 0 { NoTickAfterStop(s, events[..|events| - 1]); }
  }

  // Whatever came before, behind an interval a tick is in flight, a new one if there was none, unless the runner was stopped.
  lemma IntervalMeansTick(events: seq<Event>)
    ensures var s, t := Run(Fresh, events), Run(Fresh, events + [Interval]);
            t.runner.stopped || (t.runner.running && t.runner.started == s.runner.started + if s.runner.running then 0 else 1)
  {
    assert (events + [Interval])[..|events|] == events;
  }

  // An open window or a pending wake is not forgotten: it stays, or a tick has started since, unless one of the two was stopped.
  predicate Owed(s: Service, started: nat) {
    s.listener.window || s.runner.pending || s.runner.started > started || s.runner.stopped || s.listener.stopped
  }

  lemma {:induction false} OwedStays(s: Service, events: seq<Event>, started: nat)
    requires Sound(s) && Owed(s, started) && started <= s.runner.started
    ensures var t := Run(s, events); Sound(t) && Owed(t, started) && t.runner.started >= s.runner.started
  {
    if |events| > 0 {
      var before, last := events[..|events| - 1], events[|events| - 1];
      assert events == before + [last];
      OwedStays(s, before, started);
      NextOwed(Run(s, before), last, started);
    }
  }

  lemma NextOwed(s: Service, e: Event, started: nat)
    requires Sound(s) && Owed(s, started) && started <= s.runner.started
    ensures var t := Next(s, e); Sound(t) && Owed(t, started) && t.runner.started >= s.runner.started
  {
    NextSound(s, e);
    hide Sound;
    if !e.WindowCloses? && !e.TickSettles? && !e.Interval? { SameRunner(s, e); }
  }

  // Other events leave the runner's ticks alone, and an open window stays open unless the listener is stopped.
  lemma SameRunner(s: Service, e: Event)
    requires !e.WindowCloses? && !e.TickSettles? && !e.Interval?
    ensures var t := Next(s, e);
            && t.runner == s.runner.(stopped := t.runner.stopped) && (s.runner.stopped ==> t.runner.stopped)
            && (s.listener.stopped ==> t.listener.stopped) && (s.listener.window ==> t.listener.window || t.listener.stopped)
  {}

  // Every accepted notification is followed by a tick that starts after it: at any later time it is still in the window or
  // pending behind a tick in flight, or more ticks have started than when it arrived, or one of the two was stopped. Once the
  // window is closed and no tick is in flight, a tick has started or one of the two was stopped.
  lemma NotificationBringsTick(before: seq<Event>, session: nat, after: seq<Event>)
    requires var s := Run(Fresh, before); Accepts(s.listener, session, true) && !s.runner.stopped
    ensures var s, t := Run(Fresh, before), Run(Fresh, before + [Notification(session, true)] + after);
            && (t.listener.window || (t.runner.pending && t.runner.running) || t.runner.started > s.runner.started || t.runner.stopped || t.listener.stopped)
            && (!t.listener.window && !t.runner.running && !t.runner.stopped && !t.listener.stopped ==> t.runner.started > s.runner.started)
  {
    var middle := before + [Notification(session, true)];
    RunSound(middle);
    assert middle[..|before|] == before;
    RunSplit(Fresh, middle, after);
    OwedStays(Run(Fresh, middle), after, Run(Fresh, before).runner.started);
  }

  predicate Calls(events: seq<Event>) { forall i :: 0 <= i < |events| ==> events[i] in {Interval, WindowCloses} || events[i].Notification? }

  // A window that was open has closed during these events: the runner was woken.
  predicate WokenAt(s: Service, events: seq<Event>, i: nat) {
    i < |events| && events[i].WindowCloses? && Run(s, events[..i]).listener.window
  }

  predicate Woken(s: Service, events: seq<Event>) { exists i :: 0 <= i < |events| && WokenAt(s, events, i) }

  lemma WokenGrows(s: Service, before: seq<Event>, last: Event)
    ensures Woken(s, before + [last]) <==> Woken(s, before) || (last.WindowCloses? && Run(s, before).listener.window)
  {
    var events := before + [last];
    assert events[..|before|] == before;
    forall i | 0 <= i < |before| ensures WokenAt(s, events, i) <==> WokenAt(s, before, i) { assert events[..i] == before[..i]; }
    assert WokenAt(s, events, |before|) <==> last.WindowCloses? && Run(s, before).listener.window;
    if Woken(s, before) {
      var i :| 0 <= i < |before| && WokenAt(s, before, i);
      assert WokenAt(s, events, i);
    }
  }

  lemma {:induction false} CallsOnlyMark(s: Service, events: seq<Event>)
    requires Sound(s) && s.runner.running && !s.runner.stopped && Calls(events)
    ensures var t := Run(s, events);
            && t.runner == s.runner.(pending := s.runner.pending || Woken(s, events)) && t.listener == s.listener.(window := t.listener.window)
            && Sound(t)
  {
    if |events| > 0 {
      var before, last := events[..|events| - 1], events[|events| - 1];
      CallsOnlyMark(s, before);
      assert events == before + [last];
      WokenGrows(s, before, last);
    }
  }

  // While a tick is in flight, any number of intervals, notifications and closing windows start no other; when it has settled
  // exactly one more has started if the runner was woken meanwhile, and none if it was not.
  lemma OneFollowUp(s: Service, events: seq<Event>)
    requires Sound(s) && s.runner.running && !s.runner.stopped && !s.runner.pending && Calls(events)
    ensures var during, t := Run(s, events), Run(s, events + [TickSettles]);
            && during.runner.started == s.runner.started && during.runner.settled == s.runner.settled
            && t.runner.settled == s.runner.settled + 1
            && t.runner.started == s.runner.started + (if Woken(s, events) then 1 else 0)
            && (t.runner.running <==> Woken(s, events)) && !t.runner.pending
  {
    CallsOnlyMark(s, events);
    assert (events + [TickSettles])[..|events|] == events;
  }

  /* ---- the two objects ---- */

  class TickLoop {
    var running: bool
    var pending: bool
    var stopped: bool
    ghost var started: nat
    ghost var settled: nat

    ghost function Value(): Runner reads this { Runner(running, pending, stopped, started, settled) }

    constructor ()
      ensures Value() == Idle
    {
      running, pending, stopped, started, settled := false, false, false, 0, 0;
    }

    method StartTick()
      modifies this
      ensures Value() == Begin(old(Value()))
    {
      pending := false;
      running := true;
      started := started + 1;
    }

    method RunNow()
      modifies this
      ensures Value() == Drive(old(Value()))
    {
      if stopped || running { return; }
      StartTick();
    }

    method WakeUp()
      modifies this
      ensures Value() == Wake(old(Value()))
    {
      if stopped { return; }
      pending := true;
      RunNow();
    }

    // The tick in flight has ended, well or not; the loop goes round once more if it was woken meanwhile.
    method TickEnded()
      modifies this
      ensures Value() == Settle(old(Value()))
    {
      if !running { return; }
      running := false;
      settled := settled + 1;
      if pending && !stopped { StartTick(); }
    }

    method Halt()
      modifies this
      ensures Value() == old(Value()).(stopped := true)
    {
      stopped := true;
    }
  }

  class TickListener {
    var opening: bool
    var client: Option<nat>
    var window: bool
    var retry: bool
    var failures: nat
    var stopped: bool
    var sessions: nat
    const runner: TickLoop

    function Value(): Listener reads this { Listener(opening, client, window, retry, failures, stopped, sessions) }

    constructor (runner: TickLoop)
      ensures Value() == Closed && this.runner == runner
    {
      opening, client, window, retry, failures, stopped, sessions := false, None, false, false, 0, false, 0;
      this.runner := runner;
    }

    method Reconnect()
      modifies this
      ensures Value() == Retry(old(Value()))
    {
      if stopped { return; }
      failures := failures + 1;
      retry := true;
    }

    method Connect()
      modifies this
      ensures Value() == Open(old(Value()))
    {
      if stopped || client.Some? { return; }
      opening := true;
    }

    method ConnectEnded(ok: bool)
      requires opening
      modifies this
      ensures forall s: Service :: s.listener == old(Value()) ==> Value() == Next(s, if ok then Connected else ConnectFailed).listener
    {
      opening := false;
      if !ok {
        Reconnect();
        return;
      }
      var next := sessions;
      sessions := sessions + 1;
      if stopped { return; }
      client := Some(next);
      failures := 0;
    }

    method Receive(session: nat, valid: bool)
      modifies this
      ensures Value() == Notified(old(Value()), session, valid)
    {
      if client != Some(session) || !valid { return; }
      if window || stopped { return; }
      window := true;
    }

    method Drop(session: nat)
      modifies this
      ensures forall s: Service :: s.listener == old(Value()) ==> Value() == Next(s, Dropped(session)).listener
    {
      if client != Some(session) { return; }
      client := None;
      Reconnect();
    }

    method CloseWindow()
      requires window
      modifies this, runner
      ensures forall s: Service :: s.listener == old(Value()) && s.runner == old(runner.Value()) ==>
                Value() == Next(s, WindowCloses).listener && runner.Value() == Next(s, WindowCloses).runner
    {
      window := false;
      if !stopped { runner.WakeUp(); }
    }

    method Stop()
      modifies this
      ensures Value() == old(Value()).(stopped := true, window := false, retry := false, client := None)
    {
      stopped := true;
      window := false;
      retry := false;
      client := None;
    }
  }
}
