/** The rules of `src-tauri/src/local_server.rs`: what follows each event, and
    what every run of those rules keeps. Nothing here touches a process. */
module Supervisor {
  import opened Text

  /** How many more times the address is asked after a locked-out start. */
  const LOCKED_OUT_PROBES: nat := 1200

  /** Milliseconds between two looks at the address or the server. */
  const POLL_INTERVAL: nat := 250

  /** Milliseconds a started server may take to listen. */
  const START_TIMEOUT: nat := 300 * 1000

  const LOCKED_OUT := "while reset-demo or another server is active"

  /** What is at an address. */
  datatype Answer = MessageCrate | Free | Other

  /** Which sentence a failure is reported with. */
  datatype Message = StoppedWhileStarting | StoppedRunning | TookTooLong | NotStarted

  datatype Phase =
    | Idle
    | Probing
    | Starting(open: bool)
    | Own(open: bool)
    | Found(checking: bool)
    | Lost(details: string, probesLeft: nat)
    | PortTaken
    | Failed(message: Message, details: string)

  datatype State = State(phase: Phase, wantedOpen: bool, jobs: nat)

  const INITIAL := State(Idle, false, 0)

  datatype Event =
    | Requested(open: bool)
    | Configured(open: bool)
    | Probed(answer: Answer)
    | Listening
    | ChildExited(output: string)
    | Deadline(output: string)
    | SpawnFailed(error: string)
    | Check
    | JobStarted
    | JobEnded
    | Stopped

  datatype Action = Probe | ProbeLater | Spawn(open: bool) | Kill

  /** Nothing runs and nothing is being asked. */
  predicate Settled(p: Phase) {
    p.Idle? || p.PortTaken? || p.Failed?
  }

  /** The address has been asked and its answer decides what follows. */
  predicate Waiting(p: Phase) {
    p.Probing? || p == Found(true) || p.Lost?
  }

  /** A server the app started is meant to be there. */
  predicate Held(p: Phase) {
    p.Starting? || p.Own?
  }

  // ----- The rules, phase by phase ------------------------------------------

  /** The network setting after `e`. */
  function WantedAfter(s: State, e: Event): bool {
    match e
    case Requested(open) => open
    case Configured(open) => open
    case _ => s.wantedOpen
  }

  /** The number of desktop jobs after `e`. */
  function JobsAfter(s: State, e: Event): nat {
    match e
    case JobStarted => s.jobs + 1
    case JobEnded => if s.jobs == 0 then 0 else s.jobs - 1
    case _ => s.jobs
  }

  /** An event after which the setting is compared with the running server. */
  predicate Compares(e: Event) {
    e.Requested? || e.Configured? || e.JobEnded?
  }

  /** Whether the app's own server is to be restarted in `t`, the state with the
      setting and the jobs as they now are. */
  predicate RestartDue(t: State) {
    Held(t.phase) && t.phase.open != t.wantedOpen && (t.phase.Own? ==> t.jobs == 0)
  }

  /** What each phase does with each event: the transition table, by phase. */
  function Step(s: State, e: Event): (State, seq<Action>) {
    var t := s.(wantedOpen := WantedAfter(s, e), jobs := JobsAfter(s, e));
    match s.phase
    case Idle => FromSettled(t, e)
    case PortTaken => FromSettled(t, e)
    case Failed(_, _) => FromSettled(t, e)
    case Probing =>
      if e.Probed? then Answered(t, e.answer)
      else (if e.Stopped? then t.(phase := Idle) else t, [])
    case Found(checking) =>
      if e.Requested? then (t.(phase := Probing), if checking then [] else [Probe])
      else if e.Check? && !checking then (t.(phase := Found(true)), [Probe])
      else if e.Probed? && checking then Answered(t, e.answer)
      else (if e.Stopped? then t.(phase := Idle) else t, [])
    case Lost(details, left) =>
      if e == Probed(MessageCrate) then (t.(phase := Found(false)), [])
      else if e == Probed(Free) && left > 0 then (t.(phase := Lost(details, left - 1)), [ProbeLater])
      else if e.Probed? then (t.(phase := Failed(StoppedWhileStarting, details)), [])
      else (if e.Stopped? then t.(phase := Idle) else t, [])
    case Starting(open) =>
      if Compares(e) then Restarted(t)
      else (
        match e
        case Listening => (t.(phase := Own(open)), [])
        case ChildExited(output) =>
          var left := if Contains(output, LOCKED_OUT) then LOCKED_OUT_PROBES else 0;
          (t.(phase := Lost(output, left)), [Probe])
        case Deadline(output) => (t.(phase := Failed(TookTooLong, output)), [Kill])
        case SpawnFailed(error) => (t.(phase := Failed(NotStarted, error)), [])
        case Stopped => (t.(phase := Failed(StoppedRunning, "")), [Kill])
        case _ => (t, [])
      )
    case Own(_) =>
      if Compares(e) then Restarted(t)
      else if e.ChildExited? then (t.(phase := Failed(StoppedRunning, e.output)), [])
      else if e.Stopped? then (t.(phase := Failed(StoppedRunning, "")), [Kill])
      else (t, [])
  }

  function FromSettled(t: State, e: Event): (State, seq<Action>) {
    if e.Requested? then (t.(phase := Probing), [Probe]) else (t, [])
  }

  /** The address answered while nothing of the app's own runs. */
  function Answered(t: State, answer: Answer): (State, seq<Action>) {
    match answer
    case MessageCrate => (t.(phase := Found(false)), [])
    case Free => (t.(phase := Starting(t.wantedOpen)), [Spawn(t.wantedOpen)])
    case Other => (t.(phase := PortTaken), [])
  }

  function Restarted(t: State): (State, seq<Action>) {
    if RestartDue(t)
    then (t.(phase := Starting(t.wantedOpen)), [Kill, Spawn(t.wantedOpen)])
    else (t, [])
  }

  // ----- The rules as the program runs them, event by event -----------------

  method RestartIfWanted(state0: State) returns (state: State, actions: seq<Action>)
    ensures state == Restarted(state0).0 && actions == Restarted(state0).1
  {
    state, actions := state0, [];
    var wanted := state.wantedOpen;
    var restart;
    match state.phase {
      case Starting(open) => restart := open != wanted;
      case Own(open) => restart := open != wanted && state.jobs == 0;
      case _ => restart := false;
    }
    if restart {
      state := state.(phase := Starting(wanted));
      actions := actions + [Kill, Spawn(wanted)];
    }
  }

  /** `step`: decides by event, changing the state it was given and adding to
      the actions as it goes. It agrees with the table by phase on every input. */
  method Decide(state0: State, event: Event) returns (state: State, actions: seq<Action>)
    ensures state == Step(state0, event).0 && actions == Step(state0, event).1
  {
    state, actions := state0, [];
    match event {
      case Requested(open) =>
        state := state.(wantedOpen := open);
        match state.phase {
          case Idle | PortTaken | Failed(_, _) =>
            state := state.(phase := Probing);
            actions := actions + [Probe];
          case Found(checking) =>
            state := state.(phase := Probing);
            if !checking {
              actions := actions + [Probe];
            }
          case _ => state, actions := RestartIfWanted(state);
        }
      case Configured(open) =>
        state := state.(wantedOpen := open);
        state, actions := RestartIfWanted(state);
      case Probed(answer) =>
        var asked := state.phase.Probing? || state.phase == Found(true);
        if (asked || state.phase.Lost?) && answer.MessageCrate? {
          state := state.(phase := Found(false));
        } else if asked && answer.Free? {
          state := state.(phase := Starting(state.wantedOpen));
          actions := actions + [Spawn(state.wantedOpen)];
        } else if asked && answer.Other? {
          state := state.(phase := PortTaken);
        } else if state.phase.Lost? {
          var Lost(details, probesLeft) := state.phase;
          if probesLeft > 0 && answer == Free {
            actions := actions + [ProbeLater];
            state := state.(phase := Lost(details, probesLeft - 1));
          } else {
            state := state.(phase := Failed(StoppedWhileStarting, details));
          }
        }
      case Listening =>
        if state.phase.Starting? {
          state := state.(phase := Own(state.phase.open));
        }
      case ChildExited(output) =>
        match state.phase {
          case Starting(_) =>
            var probesLeft := if Contains(output, LOCKED_OUT) then LOCKED_OUT_PROBES else 0;
            state := state.(phase := Lost(output, probesLeft));
            actions := actions + [Probe];
          case Own(_) => state := state.(phase := Failed(StoppedRunning, output));
          case _ =>
        }
      case Deadline(output) =>
        if state.phase.Starting? {
          state := state.(phase := Failed(TookTooLong, output));
          actions := actions + [Kill];
        }
      case SpawnFailed(error) =>
        if state.phase.Starting? {
          state := state.(phase := Failed(NotStarted, error));
        }
      case Check =>
        if state.phase == Found(false) {
          state := state.(phase := Found(true));
          actions := actions + [Probe];
        }
      case JobStarted => state := state.(jobs := state.jobs + 1);
      case JobEnded =>
        state := state.(jobs := if state.jobs == 0 then 0 else state.jobs - 1);
        state, actions := RestartIfWanted(state);
      case Stopped =>
        match state.phase {
          case Starting(_) | Own(_) =>
            state := state.(phase := Failed(StoppedRunning, ""));
            actions := actions + [Kill];
          case Probing | Found(_) | Lost(_, _) => state := state.(phase := Idle);
          case _ =>
        }
    }
  }

  // ----- Whole runs ----------------------------------------------------------

  /** The state after `events`. */
  function After(s: State, events: seq<Event>): State
    decreases |events|
  {
    if events == [] then s else After(Step(s, events[0]).0, events[1..])
  }

  /** Every action asked for during `events`, in order. */
  function Asked(s: State, events: seq<Event>): seq<Action>
    decreases |events|
  {
    if events == [] then [] else Step(s, events[0]).1 + Asked(Step(s, events[0]).0, events[1..])
  }

  /** Why each action may be asked for, for every state and event: a server is
      started only when the address was asked and is free, or in place of one
      killed by the same event; only the app's own server is killed. */
  lemma ActionsAreJustified(s: State, e: Event)
    ensures forall open :: Spawn(open) in Step(s, e).1 <==>
              open == WantedAfter(s, e)
              && ((e == Probed(Free) && (s.phase.Probing? || s.phase == Found(true)))
                  || Step(s, e).1 == [Kill, Spawn(open)])
    ensures Kill in Step(s, e).1 ==> Held(s.phase)
    ensures Kill in Step(s, e).1 && s.phase.Own? ==>
              e.Stopped? || (Compares(e) && JobsAfter(s, e) == 0)
    ensures Probe in Step(s, e).1 || ProbeLater in Step(s, e).1 ==> Waiting(Step(s, e).0.phase)
  {
    assert |Step(s, e).1| <= 2;
  }

  /** What takes the phase to `p`, for each `p`: the rules read backwards. */
  predicate Causes(s: State, e: Event, p: Phase) {
    match p
    case Idle => e == Stopped && (s.phase == Probing || s.phase.Found? || s.phase.Lost?)
    case Probing => e.Requested? && (s.phase.Idle? || s.phase.PortTaken? || s.phase.Failed? || s.phase.Found?)
    case Starting(open) =>
      || (e == Probed(Free) && (s.phase == Probing || s.phase == Found(true)) && open == s.wantedOpen)
      || ((e == Requested(open) || e == Configured(open) || (e == JobEnded && open == s.wantedOpen))
          && (s.phase == Starting(!open) || (s.phase == Own(!open) && s.jobs <= if e == JobEnded then 1 else 0)))
    case Own(open) => e == Listening && s.phase == Starting(open)
    case Found(checking) =>
      if checking then e == Check && s.phase == Found(false)
      else e == Probed(MessageCrate) && (s.phase == Probing || s.phase == Found(true) || s.phase.Lost?)
    case Lost(details, left) =>
      || (e == ChildExited(details) && s.phase.Starting?
          && left == if Contains(details, LOCKED_OUT) then LOCKED_OUT_PROBES else 0)
      || (e == Probed(Free) && s.phase == Lost(details, left + 1))
    case PortTaken => e == Probed(Other) && (s.phase == Probing || s.phase == Found(true))
    case Failed(StoppedWhileStarting, details) =>
      || (e == Probed(Free) && s.phase == Lost(details, 0))
      || (e == Probed(Other) && s.phase.Lost? && s.phase.details == details)
    case Failed(StoppedRunning, details) =>
      || (e == ChildExited(details) && s.phase.Own?)
      || (e == Stopped && details == "" && (s.phase.Starting? || s.phase.Own?))
    case Failed(TookTooLong, details) => e == Deadline(details) && s.phase.Starting?
    case Failed(NotStarted, details) => e == SpawnFailed(details) && s.phase.Starting?
  }

  /** Each phase has exactly these causes, and nothing else changes the phase. */
  lemma PhasesHaveTheirCauses(s: State, e: Event, p: Phase)
    requires p != s.phase
    ensures Step(s, e).0.phase == p <==> Causes(s, e, p)
  {
    if s.phase.Starting? {
      CausesWhileStarting(s, e, p);
    } else if s.phase.Own? {
      CausesWhileOwn(s, e, p);
    } else if s.phase.Lost? {
      CausesWhileLost(s, e, p);
    } else {
      CausesOtherwise(s, e, p);
    }
  }

  lemma CausesWhileStarting(s: State, e: Event, p: Phase)
    requires s.phase.Starting? && p != s.phase
    ensures Step(s, e).0.phase == p <==> Causes(s, e, p)
  {
    hide Contains;
    match e {
      case Requested(_) =>
      case Configured(_) =>
      case Probed(_) =>
      case Listening =>
      case ChildExited(_) =>
      case Deadline(_) =>
      case SpawnFailed(_) =>
      case Check =>
      case JobStarted =>
      case JobEnded =>
      case Stopped =>
    }
  }

  lemma CausesWhileOwn(s: State, e: Event, p: Phase)
    requires s.phase.Own? && p != s.phase
    ensures Step(s, e).0.phase == p <==> Causes(s, e, p)
  {
    hide Contains;
    match e {
      case Requested(_) =>
      case Configured(_) =>
      case Probed(_) =>
      case Listening =>
      case ChildExited(_) =>
      case Deadline(_) =>
      case SpawnFailed(_) =>
      case Check =>
      case JobStarted =>
      case JobEnded =>
      case Stopped =>
    }
  }

  lemma CausesWhileLost(s: State, e: Event, p: Phase)
    requires s.phase.Lost? && p != s.phase
    ensures Step(s, e).0.phase == p <==> Causes(s, e, p)
  {
    hide Contains;
    var Lost(details, left) := s.phase;
    match e {
      case Probed(MessageCrate) =>
      case Probed(Free) =>
        assert left > 0 ==> s.phase == Lost(details, (left - 1) + 1);
      case Probed(Other) =>
      case _ =>
    }
  }

  lemma CausesOtherwise(s: State, e: Event, p: Phase)
    requires !s.phase.Starting? && !s.phase.Own? && !s.phase.Lost? && p != s.phase
    ensures Step(s, e).0.phase == p <==> Causes(s, e, p)
  {
    hide Contains;
    match e {
      case Requested(_) =>
      case Configured(_) =>
      case Probed(_) =>
      case Listening =>
      case ChildExited(_) =>
      case Deadline(_) =>
      case SpawnFailed(_) =>
      case Check =>
      case JobStarted =>
      case JobEnded =>
      case Stopped =>
    }
  }

  /** Each action is asked for in exactly these cases. */
  lemma ActionsHaveTheirCauses(s: State, e: Event)
    ensures var (t, actions) := Step(s, e);
            && (Kill in actions <==>
                  || (e == Stopped && (s.phase.Starting? || s.phase.Own?))
                  || (e.Deadline? && s.phase.Starting?)
                  || (t.phase.Starting? && (s.phase == Starting(!t.phase.open) || s.phase == Own(!t.phase.open))))
            && (forall open :: Spawn(open) in actions <==>
                  t.phase == Starting(open) && s.phase != Starting(open))
            && (ProbeLater in actions <==> s.phase.Lost? && t.phase.Lost? && s.phase != t.phase)
            && (Probe in actions <==>
                  || (t.phase == Probing && s.phase != Probing && s.phase != Found(true))
                  || (t.phase == Found(true) && s.phase != Found(true))
                  || (t.phase.Lost? && s.phase.Starting?))
  {
    assert |Step(s, e).1| <= 2;
  }

  /** Once stopped, nothing but a new request changes the phase or asks for
      anything, whatever else still happens. */
  lemma {:induction false} StopIsFinal(s: State, events: seq<Event>)
    requires forall e <- events :: !e.Requested?
    ensures var stopped := Step(s, Stopped).0;
            && Settled(stopped.phase)
            && After(stopped, events).phase == stopped.phase
            && Asked(stopped, events) == []
  {
    SettledStays(Step(s, Stopped).0, events);
  }

  lemma {:induction false} SettledStays(s: State, events: seq<Event>)
    requires Settled(s.phase)
    requires forall e <- events :: !e.Requested?
    ensures After(s, events).phase == s.phase && Asked(s, events) == []
    decreases |events|
  {
    if events != [] {
      assert events[0] in events;
      SettledStays(Step(s, events[0]).0, events[1..]);
    }
  }

  /** The setting alone, and anything else short of a request, starts nothing. */
  lemma NothingBeforeTheFirstRequest(events: seq<Event>)
    requires forall e <- events :: !e.Requested?
    ensures After(INITIAL, events).phase == Idle && Asked(INITIAL, events) == []
  {
    SettledStays(INITIAL, events);
  }

  /** The app's own server runs the way the setting says, unless it is ready
      and a job defers the restart. */
  predicate Converged(s: State) {
    && (s.phase.Starting? ==> s.phase.open == s.wantedOpen)
    && (s.phase.Own? && s.jobs == 0 ==> s.phase.open == s.wantedOpen)
  }

  lemma {:induction false} SettingConverges(s: State, events: seq<Event>)
    requires Converged(s)
    ensures Converged(After(s, events))
    decreases |events|
  {
    if events != [] {
      SettingConverges(Step(s, events[0]).0, events[1..]);
    }
  }

  // ----- Quiescence ----------------------------------------------------------

  /** Events the person and the jobs take no part in. */
  predicate Unprompted(e: Event) {
    e.Probed? || e.Listening? || e.ChildExited? || e.Deadline? || e.SpawnFailed?
  }

  /** How far a phase is from one nothing unprompted leaves. */
  function Rank(p: Phase): nat {
    match p
    case Probing => LOCKED_OUT_PROBES + 3
    case Found(checking) => if checking then LOCKED_OUT_PROBES + 3 else 0
    case Starting(_) => LOCKED_OUT_PROBES + 2
    case Lost(_, left) => left + 1
    case Own(_) => 1
    case _ => 0
  }

  /** How many of `events` change the phase. */
  function Changes(s: State, events: seq<Event>): nat
    decreases |events|
  {
    if events == [] then 0
    else
      var t := Step(s, events[0]).0;
      (if t.phase != s.phase then 1 else 0) + Changes(t, events[1..])
  }

  lemma {:induction false} QuietRunsEnd(s: State, events: seq<Event>)
    requires forall e <- events :: Unprompted(e)
    requires s.phase.Lost? ==> s.phase.probesLeft <= LOCKED_OUT_PROBES
    ensures Changes(s, events) + Rank(After(s, events).phase) <= Rank(s.phase) <= LOCKED_OUT_PROBES + 3
    decreases |events|
  {
    if events != [] {
      assert events[0] in events;
      QuietRunsEnd(Step(s, events[0]).0, events[1..]);
    }
  }

  /** Waiting for another window's server takes as long as for one's own. */
  lemma LockedOutWaitIsTheStartTimeout()
    ensures LOCKED_OUT_PROBES * POLL_INTERVAL == START_TIMEOUT
  {
  }

  function Repeat(e: Event, n: nat): (r: seq<Event>)
    ensures |r| == n && forall x <- r :: x == e
  {
    seq(n, _ => e)
  }

  lemma {:induction false} LostRunsDown(s: State)
    requires s.phase.Lost?
    ensures Changes(s, Repeat(Probed(Free), s.phase.probesLeft + 1)) == s.phase.probesLeft + 1
    decreases s.phase.probesLeft
  {
    var events := Repeat(Probed(Free), s.phase.probesLeft + 1);
    var t := Step(s, Probed(Free)).0;
    assert events[0] == Probed(Free);
    if s.phase.probesLeft == 0 {
      assert events[1..] == [];
    } else {
      LostRunsDown(t);
      assert events[1..] == Repeat(Probed(Free), t.phase.probesLeft + 1);
    }
  }

  /** The bound is reached: the longest quiet run changes the phase exactly
      `LOCKED_OUT_PROBES + 3` times. */
  lemma LongestQuietRun(open: bool) returns (events: seq<Event>)
    ensures forall e <- events :: Unprompted(e)
    ensures Changes(State(Probing, open, 0), events) == LOCKED_OUT_PROBES + 3
  {
    var s0 := State(Probing, open, 0);
    var s1 := s0.(phase := Starting(open));
    var s2 := s0.(phase := Lost(LOCKED_OUT, LOCKED_OUT_PROBES));
    var tail := Repeat(Probed(Free), LOCKED_OUT_PROBES + 1);
    var exited := [ChildExited(LOCKED_OUT)] + tail;
    events := [Probed(Free)] + exited;
    assert LOCKED_OUT <= LOCKED_OUT[0..];
    assert Step(s0, Probed(Free)).0 == s1 && Step(s1, exited[0]).0 == s2;
    LostRunsDown(s2);
    assert exited[1..] == tail && events[1..] == exited;
  }
}
