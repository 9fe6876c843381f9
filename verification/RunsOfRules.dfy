/** Every run of the desktop, whatever its threads and processes do, is a run of
    the rules of `Supervisor`, so what holds on all of those holds on it. */
module RunsOfRules {
  import opened Text
  import opened Supervisor
  import opened Host
  import opened HostRuns
  import opened Jobs
  import opened Desktop

  lemma {:induction false} AfterOn(s: State, a: seq<Event>, b: seq<Event>)
    ensures After(s, a + b) == After(After(s, a), b)
    ensures Changes(s, a + b) == Changes(s, a) + Changes(After(s, a), b)
    decreases |a|
  {
    hide Step;
    if a == [] {
      assert a + b == b;
    } else {
      assert (a + b)[1..] == a[1..] + b;
      AfterOn(Step(s, a[0]).0, a[1..], b);
    }
  }

  lemma OneEvent(s: State, e: Event)
    ensures After(s, [e]) == Step(s, e).0
  {
    hide Step;
    assert [e][1..] == [];
  }

  lemma {:induction false} ChangesAreSeen(s: State, events: seq<Event>)
    ensures After(s, events).phase != s.phase ==> Changes(s, events) >= 1
    decreases |events|
  {
    hide Step;
    if events != [] {
      ChangesAreSeen(Step(s, events[0]).0, events[1..]);
    }
  }

  predicate OnlyEvents(events: seq<Event>, e: Event) {
    forall x <- events :: x == e || x.SpawnFailed?
  }

  /** An event with all it asks for is that event, and a failed start after it. */
  lemma ApplyIsSteps(h: Host, e: Event, os: Os) returns (events: seq<Event>)
    ensures After(h.inner.state, events) == Apply(h, e, os).inner.state && OnlyEvents(events, e)
  {
    hide Step, PerformAll, After;
    var (s, actions) := Step(h.inner.state, e);
    var (h1, failed) := PerformAll(WithState(h, s), actions, os);
    ActionsLeaveState(WithState(h, s), actions, os);
    AtMostOneFailure(WithState(h, s), h.inner.state, e, os);
    events := [e];
    OneEvent(h.inner.state, e);
    if failed != [] {
      assert failed[0] in failed;
      AfterOn(h.inner.state, [e], [failed[0]]);
      OneEvent(s, failed[0]);
      events := [e] + [failed[0]];
    }
  }

  /** Neither the person nor the app asks for anything by it. */
  predicate QuietMove(m: Move) {
    m.ProbeAnswers? || m.Poll? || m.Report? || m.Writes? || m.Exits? || m.Takes? || m.Keeps?
  }

  predicate AllUnprompted(events: seq<Event>) {
    forall e <- events :: Unprompted(e)
  }

  lemma PollIsSteps(h: Host, i: nat, heard: bool, late: bool, os: Os) returns (events: seq<Event>)
    requires i < |h.watchers|
    ensures After(h.inner.state, events) == PollOnce(h, i, heard, late, os).inner.state && AllUnprompted(events)
  {
    hide Apply;
    events := [];
    if h.watchers[i].generation == h.inner.generation && !ChildExitedBy(h) {
      var h1 := h;
      if heard && HasListened(h) {
        events := ApplyIsSteps(h, Listening, os);
        h1 := Apply(h, Listening, os);
      }
      if late && h1.inner.state.phase.Starting? {
        var more := ApplyIsSteps(h1, Deadline(OutputAt(h1, h1.inner.output)), os);
        AfterOn(h.inner.state, events, more);
        events := events + more;
      }
    }
  }

  lemma MoveIsSteps(h: Host, m: Move, os: Os) returns (events: seq<Event>)
    ensures After(h.inner.state, events) == MoveOnce(h, m, os).inner.state
    ensures QuietMove(m) ==> AllUnprompted(events)
  {
    hide Apply, PollOnce;
    events := [];
    match m {
      case EnsureStarted(launch, first) =>
        var phase := h.inner.state.phase;
        var firstTime := if Settled(phase) || phase.Found? then first else h.inner.firstTime;
        events := ApplyIsSteps(h.(inner := h.inner.(firstTime := firstTime, launch := Some(launch))),
                               Requested(launch.openToNetwork), os);
      case SetOpen(open) => events := ApplyIsSteps(h, Configured(open), os);
      case AskStatus => events := ApplyIsSteps(h, Check, os);
      case JobBegins => events := ApplyIsSteps(h, JobStarted, os);
      case JobGuardDropped => events := ApplyIsSteps(h, JobEnded, os);
      case Stop => events := ApplyIsSteps(h, Stopped, os);
      case ProbeAnswers(answer) =>
        if h.probes > 0 {
          events := ApplyIsSteps(h.(probes := h.probes - 1), Probed(answer), os);
        }
      case Poll(i, heard, late) =>
        if i < |h.watchers| && h.watchers[i].at.Polling? {
          events := PollIsSteps(h, i, heard, late, os);
        }
      case Report(i) =>
        if i < |h.watchers| && h.watchers[i].at.Reaping? && ReadersDone(h, h.watchers[i].at.readers)
           && h.watchers[i].generation == h.inner.generation {
          events := ApplyIsSteps(WithWatcher(h, i, Gone), ChildExited(OutputAt(h, h.watchers[i].at.output)), os);
        }
      case _ =>
    }
  }

  /** A turn in which no screen, job or stop plays a part. */
  predicate QuietTurn(turn: Turn) {
    match turn
    case ServerTurn(m, _) => QuietMove(m)
    case JobTurn(m, _) => !m.SpawnJob? && !m.ReleaseGuard?
  }

  lemma TurnIsSteps(w: World, turn: Turn) returns (events: seq<Event>)
    ensures After(w.host.inner.state, events) == Turned(w, turn).host.inner.state
    ensures QuietTurn(turn) ==> AllUnprompted(events)
  {
    hide MoveOnce;
    events := [];
    match turn {
      case ServerTurn(m, os) =>
        if !m.JobBegins? && !m.JobGuardDropped? {
          events := MoveIsSteps(w.host, m, os);
        }
      case JobTurn(m, os) =>
        if Enabled(w.slots, m) && m.SpawnJob? {
          events := MoveIsSteps(w.host, JobBegins, os);
        } else if Enabled(w.slots, m) && m.ReleaseGuard? {
          events := MoveIsSteps(w.host, JobGuardDropped, os);
        }
    }
  }

  /** How many turns change the phase. */
  function PhaseChanges(w: World, turns: seq<Turn>): nat
    decreases |turns|
  {
    if turns == [] then 0
    else
      var u := Turned(w, turns[0]);
      (if u.host.inner.state.phase != w.host.inner.state.phase then 1 else 0) + PhaseChanges(u, turns[1..])
  }

  /** The rules, given the right events, come to the same state as the desktop,
      with no fewer changes of the phase. */
  lemma {:induction false} RunIsARunOfTheRules(w: World, turns: seq<Turn>) returns (events: seq<Event>)
    ensures After(w.host.inner.state, events) == Run(w, turns).host.inner.state
    ensures PhaseChanges(w, turns) <= Changes(w.host.inner.state, events)
    ensures (forall turn <- turns :: QuietTurn(turn)) ==> AllUnprompted(events)
    decreases |turns|
  {
    hide Turned, Step, QuietTurn;
    if turns == [] {
      events := [];
    } else {
      var first := TurnIsSteps(w, turns[0]);
      var rest := RunIsARunOfTheRules(Turned(w, turns[0]), turns[1..]);
      AfterOn(w.host.inner.state, first, rest);
      ChangesAreSeen(w.host.inner.state, first);
      assert (forall turn <- turns :: QuietTurn(turn)) ==> QuietTurn(turns[0]);
      events := first + rest;
    }
  }

  lemma {:induction false} ProbesLeftAreBounded(s: State, events: seq<Event>)
    requires s.phase.Lost? ==> s.phase.probesLeft <= LOCKED_OUT_PROBES
    ensures After(s, events).phase.Lost? ==> After(s, events).phase.probesLeft <= LOCKED_OUT_PROBES
    decreases |events|
  {
    if events != [] {
      ProbesLeftAreBounded(Step(s, events[0]).0, events[1..]);
    }
  }

  /** From any point of any run, as long as no screen, job or stop plays a part,
      the phase changes at most `LOCKED_OUT_PROBES + 3` more times, and by as many
      times fewer as it has come down. */
  lemma QuietDesktopSettles(turns: seq<Turn>, more: seq<Turn>)
    requires forall turn <- more :: QuietTurn(turn)
    ensures var w := Run(INITIAL_WORLD, turns);
            PhaseChanges(w, more) + Rank(Run(w, more).host.inner.state.phase)
            <= Rank(w.host.inner.state.phase) <= LOCKED_OUT_PROBES + 3
  {
    hide Run, QuietTurn, PhaseChanges, After, Changes, Rank, Step;
    var w := Run(INITIAL_WORLD, turns);
    var before := RunIsARunOfTheRules(INITIAL_WORLD, turns);
    ProbesLeftAreBounded(INITIAL, before);
    var after := RunIsARunOfTheRules(w, more);
    QuietRunsEnd(w.host.inner.state, after);
  }
}
