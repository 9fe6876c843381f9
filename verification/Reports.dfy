/** What the screens are told, and what the app starts, for each thing that
    happens, and over whole runs of the desktop. */
module Reports {
  import opened Text
  import opened Supervisor
  import opened Output
  import opened Host
  import opened Ownership
  import opened HostRuns
  import opened Jobs
  import opened Desktop
  import opened Guarantees

  function Told(h: Host): Status {
    StatusOf(h.inner)
  }

  /** The state an event leaves: what the rules say, and a start that fails is a
      failure with the system's own words. */
  lemma ApplyState(h: Host, e: Event, os: Os)
    requires !e.SpawnFailed? && (e.Requested? || h.inner.state.phase != Idle ==> h.inner.launch.Some?)
    ensures var s := Step(h.inner.state, e).0; var t := Apply(h, e, os);
            var starts := exists open :: Spawn(open) in Step(h.inner.state, e).1;
            && t.inner.state == (if starts && !os.starts then s.(phase := Failed(NotStarted, os.error)) else s)
            && t.inner.firstTime == (if starts then os.firstStart else h.inner.firstTime)
            && t.inner.launch == h.inner.launch
  {
    hide Step, Apply;
    var (s, actions) := Step(h.inner.state, e);
    StepFacts(h.inner.state, e);
    if actions == [Kill] {
      ApplyKills(h, e, os);
    } else if LooksOnly(actions) {
      ApplyLooksOnly(h, e, os);
    } else {
      assert Spawn(s.wantedOpen) in actions;
      ApplySpawns(h, e, s.wantedOpen, os);
      StartedState(h, e, s.wantedOpen, os);
    }
  }

  lemma StartedState(h: Host, e: Event, open: bool, os: Os)
    requires h.inner.launch.Some? && Step(h.inner.state, e).0.phase == Starting(open)
    ensures var b := BeforeStart(h, e); var (t, error) := SpawnServer(b, open, os);
            && b.inner.launch == h.inner.launch == t.inner.launch
            && t.inner.state == Step(h.inner.state, e).0 && t.inner.firstTime == os.firstStart
            && error == (if os.starts then None else Some(os.error))
            && (error.Some? ==>
                  Step(t.inner.state, SpawnFailed(os.error)).0 ==
                  Step(h.inner.state, e).0.(phase := Failed(NotStarted, os.error)))
  {
    FailedStartAsksNothing(Step(h.inner.state, e).0, os.error);
    hide Step;
  }

  // ----- Answers -----------------------------------------------------------------

  /** What the screens are told for each answer to the question what is at the
      address. */
  lemma AnswersAreTold(h: Host, answer: Answer, os: Os)
    requires HostInv(h) && h.probes > 0
    requires h.inner.state.phase == Probing || h.inner.state.phase == Found(true)
    ensures var st := Told(MoveOnce(h, ProbeAnswers(answer), os));
            match answer
            case MessageCrate => st == Ready(false)
            case Other => st == Down(true, "")
            case Free => st == if os.starts then ComingUp(os.firstStart) else Down(false, os.error)
  {
    hide Apply;
    var asked := h.(probes := h.probes - 1);
    ApplyState(asked, Probed(answer), os);
    if answer.Free? {
      assert Step(asked.inner.state, Probed(answer)).1 == [Spawn(h.inner.state.wantedOpen)];
    }
  }

  /** After a start that was lost, only a Message Crate is good news. */
  lemma LostStartsAreTold(h: Host, answer: Answer, os: Os)
    requires HostInv(h) && h.probes > 0 && h.inner.state.phase.Lost?
    ensures var st := Told(MoveOnce(h, ProbeAnswers(answer), os)); var Lost(details, left) := h.inner.state.phase;
            match answer
            case MessageCrate => st == Ready(false)
            case Other => st == Down(false, details)
            case Free => st == if left > 0 then ComingUp(h.inner.firstTime) else Down(false, details)
  {
    hide Apply;
    ApplyState(h.(probes := h.probes - 1), Probed(answer), os);
  }

  // ----- Requests, checks, the setting, stops ----------------------------------------

  /** A request for which nothing of the app's own runs asks the address, and the
      screens see it coming up, for the first time when there is no database. */
  lemma RequestsAreTakenUp(h: Host, launch: Launch, first: bool, os: Os)
    requires HostInv(h) && !Held(h.inner.state.phase)
    ensures var t := MoveOnce(h, EnsureStarted(launch, first), os);
            && t.inner.launch == Some(launch) && t.inner.state.wantedOpen == launch.openToNetwork
            && Waiting(t.inner.state.phase)
            && (Settled(h.inner.state.phase) || h.inner.state.phase.Found? ==>
                  t.inner.state.phase == Probing && Told(t) == ComingUp(first))
            && (h.inner.state.phase.Probing? || h.inner.state.phase.Lost? ==>
                  t.inner.state.phase == h.inner.state.phase && Told(t) == Told(h))
  {
    hide Apply;
    var phase := h.inner.state.phase;
    var firstTime := if Settled(phase) || phase.Found? then first else h.inner.firstTime;
    ApplyState(h.(inner := h.inner.(firstTime := firstTime, launch := Some(launch))), Requested(launch.openToNetwork), os);
  }

  /** Asking for the state of a Message Crate that was found asks it again, and
      changes nothing else. */
  lemma FoundIsAskedAgain(h: Host, os: Os)
    requires HostInv(h)
    ensures var t := MoveOnce(h, AskStatus, os);
            && Told(t) == Told(h)
            && t == (if h.inner.state.phase == Found(false)
                     then h.(probes := h.probes + 1, inner := h.inner.(state := h.inner.state.(phase := Found(true))))
                     else h)
  {
    ApplyLooksOnly(h, Check, os);
  }

  /** What a stop says: nothing was asked for, or the app's server stopped. */
  lemma StopsAreTold(h: Host, os: Os)
    requires HostInv(h)
    ensures var st := Told(MoveOnce(h, Stop, os));
            match h.inner.state.phase
            case Probing => st == NotAsked
            case Found(_) => st == NotAsked
            case Lost(_, _) => st == NotAsked
            case Starting(_) => st == Down(false, "")
            case Own(_) => st == Down(false, "")
            case _ => st == Told(h)
  {
    hide Apply;
    ApplyState(h, Stopped, os);
  }

  // ----- The app's own server ---------------------------------------------------------

  /** Whether `i` is the watcher of the current generation's server, and polls. */
  predicate Watches(h: Host, i: nat) {
    i < |h.watchers| && h.watchers[i].at.Polling? && h.watchers[i].generation == h.inner.generation
  }

  /** Once the server has said that it listens and its watcher hears it, the
      screens are told that the app's own server is ready, also past the deadline. */
  lemma ListeningIsTold(h: Host, i: nat, late: bool, os: Os)
    requires HostInv(h) && Watches(h, i) && !ChildExitedBy(h) && Newest(h).pipes.listened
    ensures Told(MoveOnce(h, Poll(i, true, late), os)) == Ready(true)
  {
    hide Apply;
    WatchesNewest(h, i);
    ApplyState(h, Listening, os);
  }

  lemma WatchesNewest(h: Host, i: nat)
    requires HostInv(h) && Watches(h, i)
    ensures i == |h.procs| - 1 && h.inner.child == Some(i) && Held(h.inner.state.phase)
    ensures h.inner.output == Some(i) && h.inner.listened == Some(i) && h.inner.readers == Some(i)
  {
  }

  /** A server that has not said so by its deadline is killed, and its output told. */
  lemma TooLateIsTold(h: Host, i: nat, heard: bool, os: Os)
    requires HostInv(h) && Watches(h, i) && !ChildExitedBy(h) && h.inner.state.phase.Starting?
    requires !heard || !Newest(h).pipes.listened
    ensures var t := MoveOnce(h, Poll(i, heard, true), os);
            && Told(t) == Down(false, JoinLines(Newest(h).pipes.lines))
            && t.inner.child.None? && (forall p <- t.procs :: !p.running)
  {
    hide Apply;
    WatchesNewest(h, i);
    var e := Deadline(JoinLines(Newest(h).pipes.lines));
    ApplyState(h, e, os);
    ApplyKills(h, e, os);
    KillApart(h, Step(h.inner.state, e).0);
  }

  /** Before the deadline, and with nothing heard, a poll of a running server
      changes nothing. */
  lemma QuietPollsChangeNothing(h: Host, i: nat, heard: bool, os: Os)
    requires HostInv(h) && Watches(h, i) && !ChildExitedBy(h)
    requires !heard || !Newest(h).pipes.listened || h.inner.state.phase.Own?
    ensures MoveOnce(h, Poll(i, heard, false), os) == h
  {
    WatchesNewest(h, i);
    if heard && HasListened(h) {
      ApplyLooksOnly(h, Listening, os);
    }
  }

  /** An exit is noticed by the next poll, which takes along the readers and the
      output of the server that exited. */
  lemma ExitsAreNoticed(h: Host, i: nat, heard: bool, late: bool, os: Os)
    requires HostInv(h) && Watches(h, i) && !h.procs[i].running
    ensures var t := MoveOnce(h, Poll(i, heard, late), os);
            && t.watchers[i].at == Reaping(Some(i), Some(i)) && t.inner.child.None? && Told(t) == Told(h)
  {
    WatchesNewest(h, i);
  }

  /** And, once its readers have ended, reported: a server that was ready has
      failed, and one that was starting is asked for once more, or as long as a
      start may take if another server holds its data. */
  lemma ExitsAreTold(h: Host, i: nat, os: Os)
    requires HostInv(h) && i < |h.watchers| && h.watchers[i].at.Reaping?
    requires h.watchers[i].generation == h.inner.generation && Drained(h.procs[i].pipes)
    ensures var t := MoveOnce(h, Report(i), os); var output := JoinLines(h.procs[i].pipes.lines);
            if h.inner.state.phase.Own? then Told(t) == Down(false, output)
            else
              && Told(t) == ComingUp(h.inner.firstTime)
              && t.inner.state.phase ==
                 Lost(output, if Contains(output, LOCKED_OUT) then LOCKED_OUT_PROBES else 0)
              && t.probes == h.probes + 1
  {
    hide Apply;
    var h1 := WithWatcher(h, i, Gone);
    var e := ChildExited(JoinLines(h.procs[i].pipes.lines));
    assert Held(h.inner.state.phase) && h.watchers[i].at == Reaping(Some(i), Some(i));
    ApplyLooksOnly(h1, e, os);
  }

  /** Once a server has ended, its readers can end, so that its exit is reported:
      some of their steps read and keep all it wrote. */
  lemma {:induction false} ReaderCanEnd(p: Pipes, s: Stream) returns (steps: nat)
    requires PipesInv(p) && Of(p, s).closed
    ensures var q := Read(p, s, steps);
            && Of(q, s).reader.Ended? && PipesInv(q)
            && (forall other: Stream | other != s :: Of(q, other) == Of(p, other))
    decreases |Of(p, s).written| - Of(p, s).taken, if Of(p, s).reader.Holding? then 1 else 0
  {
    hide PipesInv;
    var pipe := Of(p, s);
    TakenIsWritten(p, s);
    if pipe.reader.Ended? {
      steps := 0;
    } else {
      TakeKeepsInv(p, s);
      KeepKeepsInv(p, s);
      if pipe.reader.Holding? {
        var more := ReaderCanEnd(Keep(p, s), s);
        steps := more + 1;
      } else if pipe.taken == |pipe.written| {
        steps := 1;
      } else {
        var more := ReaderCanEnd(Take(p, s), s);
        steps := more + 1;
      }
    }
  }

  lemma TakenIsWritten(p: Pipes, s: Stream)
    requires PipesInv(p)
    ensures Of(p, s).taken <= |Of(p, s).written|
  {
    assert PipeInv(p, s);
  }

  /** `steps` steps of one reader: it keeps the line it holds, or takes the next. */
  function Read(p: Pipes, s: Stream, steps: nat): Pipes
    decreases steps
  {
    if steps == 0 then p
    else Read(if Of(p, s).reader.Holding? then Keep(p, s) else Take(p, s), s, steps - 1)
  }

  lemma ReadersCanEnd(p: Pipes) returns (stdout: nat, stderr: nat)
    requires PipesInv(p) && p.stdout.closed && p.stderr.closed
    ensures Drained(Read(Read(p, Stdout, stdout), Stderr, stderr))
  {
    hide PipesInv;
    stdout := ReaderCanEnd(p, Stdout);
    var q := Read(p, Stdout, stdout);
    assert Of(q, Stderr) == Of(p, Stderr) == p.stderr;
    stderr := ReaderCanEnd(q, Stderr);
    var r := Read(q, Stderr, stderr);
    assert Of(r, Stdout) == Of(q, Stdout);
  }

  // ----- What is started ---------------------------------------------------------------

  predicate SameButSetting(a: Launch, b: Launch) {
    a.program == b.program && a.dataDir == b.dataDir && a.address == b.address
  }

  predicate StartedBy(p: Process, launch: Option<Launch>) {
    launch.Some? && SameButSetting(p.launch, launch.value)
  }

  /** Every process an action starts is started from the launch that is held, open
      as asked. */
  lemma {:induction false} ActionsStartFromTheLaunch(h: Host, actions: seq<Action>, os: Os)
    ensures var t := PerformAll(h, actions, os).0;
            && t.inner.launch == h.inner.launch && |h.procs| <= |t.procs|
            && forall i | |h.procs| <= i < |t.procs| ::
                 StartedBy(t.procs[i], h.inner.launch) && Spawn(t.procs[i].launch.openToNetwork) in actions
    decreases |actions|
  {
    hide Perform;
    if actions != [] {
      var h1, t := Perform(h, actions[0], os).0, PerformAll(h, actions, os).0;
      OneStartsFromTheLaunch(h, actions[0], os);
      ActionsStartFromTheLaunch(h1, actions[1..], os);
      ActionsGrow(h1, actions[1..], os);
      forall i | |h.procs| <= i < |t.procs|
        ensures StartedBy(t.procs[i], h.inner.launch)
        ensures Spawn(t.procs[i].launch.openToNetwork) in actions
      {
        if i < |h1.procs| {
          assert t.procs[i].launch == h1.procs[i].launch && actions[0] in actions;
        }
      }
    }
  }

  lemma OneStartsFromTheLaunch(h: Host, a: Action, os: Os)
    ensures var t := Perform(h, a, os).0;
            && t.inner.launch == h.inner.launch && |h.procs| <= |t.procs|
            && forall i | |h.procs| <= i < |t.procs| ::
                 StartedBy(t.procs[i], h.inner.launch) && a == Spawn(t.procs[i].launch.openToNetwork)
  {
  }

  /** The launch a move leaves held. */
  function LaunchAfter(h: Host, m: Move): Option<Launch> {
    if m.EnsureStarted? then Some(m.launch) else h.inner.launch
  }

  predicate StartedFrom(h: Host, t: Host, launch: Option<Launch>) {
    && t.inner.launch == launch && |h.procs| <= |t.procs|
    && forall i | |h.procs| <= i < |t.procs| :: StartedBy(t.procs[i], launch)
  }

  /** Nothing started in a first part is given another launch by a second. */
  lemma StartedOn(h: Host, h1: Host, t: Host, launch: Option<Launch>)
    requires StartedFrom(h, h1, launch) && StartedFrom(h1, t, launch) && Grows(h1, t)
    ensures StartedFrom(h, t, launch)
  {
    forall i | |h.procs| <= i < |t.procs|
      ensures StartedBy(t.procs[i], launch)
    {
      if i < |h1.procs| {
        assert t.procs[i].launch == h1.procs[i].launch;
      }
    }
  }

  lemma ApplyStartsFromTheLaunch(h: Host, e: Event, os: Os)
    ensures StartedFrom(h, Apply(h, e, os), h.inner.launch)
  {
    hide Step, PerformAll;
    var (s, actions) := Step(h.inner.state, e);
    ActionsStartFromTheLaunch(WithState(h, s), actions, os);
    var h1 := PerformAll(WithState(h, s), actions, os).0;
    assert Apply(h, e, os).procs == h1.procs && Apply(h, e, os).inner.launch == h1.inner.launch;
  }

  /** Every move starts processes from the launch then held alone: the program, the
      data folder and the address are those of the last request. */
  lemma MovesStartFromTheLaunch(h: Host, m: Move, os: Os)
    ensures StartedFrom(h, MoveOnce(h, m, os), LaunchAfter(h, m))
  {
    hide Apply, Write, Take, Keep, Close;
    match m {
      case EnsureStarted(launch, first) =>
        var phase := h.inner.state.phase;
        var firstTime := if Settled(phase) || phase.Found? then first else h.inner.firstTime;
        ApplyStartsFromTheLaunch(h.(inner := h.inner.(firstTime := firstTime, launch := Some(launch))),
                                 Requested(launch.openToNetwork), os);
      case SetOpen(open) => ApplyStartsFromTheLaunch(h, Configured(open), os);
      case AskStatus => ApplyStartsFromTheLaunch(h, Check, os);
      case JobBegins => ApplyStartsFromTheLaunch(h, JobStarted, os);
      case JobGuardDropped => ApplyStartsFromTheLaunch(h, JobEnded, os);
      case Stop => ApplyStartsFromTheLaunch(h, Stopped, os);
      case ProbeAnswers(answer) =>
        if h.probes > 0 {
          ApplyStartsFromTheLaunch(h.(probes := h.probes - 1), Probed(answer), os);
        }
      case Poll(i, heard, late) =>
        if i < |h.watchers| {
          PollStartsFromTheLaunch(h, i, heard, late, os);
        }
      case Report(i) =>
        if i < |h.watchers| && h.watchers[i].at.Reaping? {
          ApplyStartsFromTheLaunch(WithWatcher(h, i, Gone), ChildExited(OutputAt(h, h.watchers[i].at.output)), os);
        }
      case _ =>
    }
  }

  lemma PollStartsFromTheLaunch(h: Host, i: nat, heard: bool, late: bool, os: Os)
    requires i < |h.watchers|
    ensures StartedFrom(h, PollOnce(h, i, heard, late, os), h.inner.launch)
  {
    hide Apply;
    ApplyStartsFromTheLaunch(h, Listening, os);
    var h1 := if heard && HasListened(h) then Apply(h, Listening, os) else h;
    var e := Deadline(OutputAt(h1, h1.inner.output));
    ApplyStartsFromTheLaunch(h1, e, os);
    ApplyGrows(h1, e, os);
    StartedOn(h, h1, Apply(h1, e, os), h.inner.launch);
  }

  // ----- What the history says ------------------------------------------------------------

  /** The desktop after `turns`. */
  function At(turns: seq<Turn>): World {
    Guarantees.World(turns)
  }

  lemma {:induction false} OneTurnMore(w: World, turns: seq<Turn>, turn: Turn)
    ensures Run(w, turns + [turn]) == Turned(Run(w, turns), turn)
    decreases |turns|
  {
    hide Turned;
    if turns == [] {
      assert turns + [turn] == [turn] && [turn][1..] == [];
    } else {
      assert (turns + [turn])[1..] == turns[1..] + [turn];
      OneTurnMore(Turned(w, turns[0]), turns[1..], turn);
    }
  }

  function Before(turns: seq<Turn>): seq<Turn>
    requires turns != []
  {
    turns[..|turns| - 1]
  }

  function Latest(turns: seq<Turn>): Turn
    requires turns != []
  {
    turns[|turns| - 1]
  }

  lemma LastTurn(turns: seq<Turn>)
    requires turns != []
    ensures At(turns) == Turned(At(Before(turns)), Latest(turns))
  {
    assert turns == Before(turns) + [Latest(turns)];
    OneTurnMore(INITIAL_WORLD, Before(turns), Latest(turns));
  }

  /** The launch of the last request. */
  function LastRequest(turns: seq<Turn>): Option<Launch>
    decreases |turns|
  {
    if turns == [] then None
    else
      match Latest(turns)
      case ServerTurn(EnsureStarted(launch, _), _) => Some(launch)
      case _ => LastRequest(Before(turns))
  }

  /** The network setting last given, with a request or by itself. */
  function LastSetting(turns: seq<Turn>): bool
    decreases |turns|
  {
    if turns == [] then false
    else
      match Latest(turns)
      case ServerTurn(EnsureStarted(launch, _), _) => launch.openToNetwork
      case ServerTurn(SetOpen(open), _) => open
      case _ => LastSetting(Before(turns))
  }

  lemma TurnsStartFromTheLaunch(w: World, turn: Turn)
    ensures StartedFrom(w.host, Turned(w, turn).host,
                        if turn.ServerTurn? then LaunchAfter(w.host, turn.move) else w.host.inner.launch)
  {
    hide MoveOnce;
    match turn {
      case ServerTurn(m, os) => MovesStartFromTheLaunch(w.host, m, os);
      case JobTurn(m, os) =>
        MovesStartFromTheLaunch(w.host, JobBegins, os);
        MovesStartFromTheLaunch(w.host, JobGuardDropped, os);
    }
  }

  lemma {:induction false} LaunchIsTheLastRequest(turns: seq<Turn>)
    ensures At(turns).host.inner.launch == LastRequest(turns)
    decreases |turns|
  {
    hide Turned, StartedFrom;
    if turns != [] {
      LaunchIsTheLastRequest(Before(turns));
      LastTurn(turns);
      HeldAfter(At(Before(turns)), Latest(turns));
    }
  }

  lemma HeldAfter(w: World, turn: Turn)
    ensures Turned(w, turn).host.inner.launch ==
            if turn.ServerTurn? && turn.move.EnsureStarted? then Some(turn.move.launch) else w.host.inner.launch
  {
    TurnsStartFromTheLaunch(w, turn);
  }

  /** On every run, whatever is started is started with the program, the data
      folder and the address of the last request, and told to listen at that
      address's port, and at that address unless it is open to the network. */
  lemma ServersAreThoseRequested(turns: seq<Turn>, i: nat)
    requires turns != [] && |At(Before(turns)).host.procs| <= i < |At(turns).host.procs|
    ensures var launch := At(turns).host.procs[i].launch; var last := LastRequest(turns);
            && last.Some? && SameButSetting(launch, last.value)
            && Bind(launch).port == last.value.address.port
            && (!launch.openToNetwork ==> Bind(launch) == last.value.address)
            && (launch.openToNetwork ==> Bind(launch).ip == "0.0.0.0")
  {
    hide Turned;
    LastTurn(turns);
    TurnsStartFromTheLaunch(At(Before(turns)), Latest(turns));
    LaunchIsTheLastRequest(Before(turns));
  }

  /** And it keeps that launch. */
  lemma ServersKeepTheirLaunch(turns: seq<Turn>, more: seq<Turn>, i: nat)
    requires i < |At(turns).host.procs|
    ensures i < |Run(At(turns), more).host.procs|
    ensures Run(At(turns), more).host.procs[i].launch == At(turns).host.procs[i].launch
  {
    RunGrows(At(turns), more);
  }

  lemma ApplyWanted(h: Host, e: Event, os: Os)
    ensures Apply(h, e, os).inner.state.wantedOpen ==
            match e
            case Requested(open) => open
            case Configured(open) => open
            case _ => h.inner.state.wantedOpen
  {
    hide PerformAll;
    var (s, actions) := Step(h.inner.state, e);
    ActionsLeaveState(WithState(h, s), actions, os);
    AtMostOneFailure(WithState(h, s), h.inner.state, e, os);
    var (h1, failed) := PerformAll(WithState(h, s), actions, os);
    if failed != [] {
      assert failed[0] in failed;
    }
  }

  lemma MoveWanted(h: Host, m: Move, os: Os)
    ensures MoveOnce(h, m, os).inner.state.wantedOpen ==
            match m
            case EnsureStarted(launch, _) => launch.openToNetwork
            case SetOpen(open) => open
            case _ => h.inner.state.wantedOpen
  {
    hide Apply, Write, Take, Keep, Close;
    match m {
      case EnsureStarted(launch, first) =>
        var phase := h.inner.state.phase;
        var firstTime := if Settled(phase) || phase.Found? then first else h.inner.firstTime;
        ApplyWanted(h.(inner := h.inner.(firstTime := firstTime, launch := Some(launch))),
                    Requested(launch.openToNetwork), os);
      case SetOpen(open) => ApplyWanted(h, Configured(open), os);
      case AskStatus => ApplyWanted(h, Check, os);
      case JobBegins => ApplyWanted(h, JobStarted, os);
      case JobGuardDropped => ApplyWanted(h, JobEnded, os);
      case Stop => ApplyWanted(h, Stopped, os);
      case ProbeAnswers(answer) =>
        if h.probes > 0 {
          ApplyWanted(h.(probes := h.probes - 1), Probed(answer), os);
        }
      case Poll(i, heard, late) =>
        ApplyWanted(h, Listening, os);
        var h1 := if heard && HasListened(h) then Apply(h, Listening, os) else h;
        ApplyWanted(h1, Deadline(OutputAt(h1, h1.inner.output)), os);
      case Report(i) =>
        if i < |h.watchers| && h.watchers[i].at.Reaping? {
          ApplyWanted(WithWatcher(h, i, Gone), ChildExited(OutputAt(h, h.watchers[i].at.output)), os);
        }
      case _ =>
    }
  }

  lemma TurnWanted(w: World, turn: Turn)
    ensures Turned(w, turn).host.inner.state.wantedOpen ==
            match turn
            case ServerTurn(EnsureStarted(launch, _), _) => launch.openToNetwork
            case ServerTurn(SetOpen(open), _) => open
            case _ => w.host.inner.state.wantedOpen
  {
    hide MoveOnce;
    match turn {
      case ServerTurn(m, os) => MoveWanted(w.host, m, os);
      case JobTurn(m, os) =>
        MoveWanted(w.host, JobBegins, os);
        MoveWanted(w.host, JobGuardDropped, os);
    }
  }

  lemma {:induction false} WantedIsTheLastSetting(turns: seq<Turn>)
    ensures At(turns).host.inner.state.wantedOpen == LastSetting(turns)
    decreases |turns|
  {
    hide Turned;
    if turns != [] {
      WantedIsTheLastSetting(Before(turns));
      LastTurn(turns);
      TurnWanted(At(Before(turns)), Latest(turns));
    }
  }

  /** On every run a running server listens on every address exactly when the
      person said so last, unless it is ready and a job is in its body. */
  lemma RunningServerObeysTheLastSetting(turns: seq<Turn>, i: nat)
    requires i < |At(turns).host.procs| && At(turns).host.procs[i].running
    requires At(turns).host.inner.state.phase.Starting? || Guards(At(turns).slots.jobs) == 0
    ensures At(turns).host.procs[i].launch.openToNetwork == LastSetting(turns)
  {
    hide HostInv;
    ServerKeepsInv(turns);
    WantedIsTheLastSetting(turns);
    RunningAsWanted(At(turns).host, i);
  }

  /** The last answer that was waited for. */
  function LastAnswer(turns: seq<Turn>): Option<Answer>
    decreases |turns|
  {
    if turns == [] then None
    else
      match Latest(turns)
      case ServerTurn(ProbeAnswers(answer), _) =>
        var h := At(Before(turns)).host;
        if h.probes > 0 && (h.inner.state.phase == Probing || h.inner.state.phase == Found(true) || h.inner.state.phase.Lost?)
        then Some(answer) else LastAnswer(Before(turns))
      case _ => LastAnswer(Before(turns))
  }

  /** Nothing but an answer makes a found Message Crate or a taken port. */
  lemma ApplyFinds(h: Host, e: Event, os: Os)
    requires !e.SpawnFailed? && (e.Requested? || h.inner.state.phase != Idle ==> h.inner.launch.Some?)
    ensures var t := Apply(h, e, os).inner.state.phase; var phase := h.inner.state.phase;
            && (t.Found? ==> phase.Found? || (e == Probed(MessageCrate) && Waiting(phase)))
            && (t.PortTaken? ==> phase.PortTaken? || (e == Probed(Other) && Waiting(phase)))
            && (e.Probed? && Waiting(phase) ==>
                  (t.Found? ==> e.answer == MessageCrate) && (t.PortTaken? ==> e.answer == Other))
  {
    hide Apply;
    ApplyState(h, e, os);
    var s := Step(h.inner.state, e).0;
    if s.phase != h.inner.state.phase {
      PhasesHaveTheirCauses(h.inner.state, e, s.phase);
    }
  }

  predicate TellsTheAnswer(phase: Phase, last: Option<Answer>) {
    (phase.Found? ==> last == Some(MessageCrate)) && (phase.PortTaken? ==> last == Some(Other))
  }

  lemma MoveFinds(h: Host, m: Move, os: Os, last: Option<Answer>)
    requires HostInv(h) && TellsTheAnswer(h.inner.state.phase, last)
    ensures TellsTheAnswer(MoveOnce(h, m, os).inner.state.phase,
              if m.ProbeAnswers? && h.probes > 0 && Waiting(h.inner.state.phase) then Some(m.answer) else last)
  {
    hide Apply, Write, Take, Keep, Close, HostInv;
    assert h.inner.state.phase != Idle ==> h.inner.launch.Some? by { LaunchKnown(h); }
    match m {
      case EnsureStarted(launch, first) =>
        var phase := h.inner.state.phase;
        var firstTime := if Settled(phase) || phase.Found? then first else h.inner.firstTime;
        ApplyFinds(h.(inner := h.inner.(firstTime := firstTime, launch := Some(launch))),
                   Requested(launch.openToNetwork), os);
      case SetOpen(open) => ApplyFinds(h, Configured(open), os);
      case AskStatus => ApplyFinds(h, Check, os);
      case JobBegins => ApplyFinds(h, JobStarted, os);
      case JobGuardDropped => ApplyFinds(h, JobEnded, os);
      case Stop => ApplyFinds(h, Stopped, os);
      case ProbeAnswers(answer) =>
        if h.probes > 0 {
          ApplyFinds(h.(probes := h.probes - 1), Probed(answer), os);
        }
      case Poll(i, heard, late) =>
        if i < |h.watchers| && h.watchers[i].at.Polling? {
          PollFinds(h, i, heard, late, os);
        }
      case Report(i) =>
        if i < |h.watchers| && h.watchers[i].at.Reaping? {
          ApplyFinds(WithWatcher(h, i, Gone), ChildExited(OutputAt(h, h.watchers[i].at.output)), os);
        }
      case _ =>
    }
  }

  lemma PollFinds(h: Host, i: nat, heard: bool, late: bool, os: Os)
    requires i < |h.watchers| && HostInv(h)
    ensures var t := PollOnce(h, i, heard, late, os).inner.state.phase; var phase := h.inner.state.phase;
            (t.Found? ==> phase.Found?) && (t.PortTaken? ==> phase.PortTaken?)
  {
    hide Apply;
    ApplyFinds(h, Listening, os);
    ApplyState(h, Listening, os);
    var h1 := if heard && HasListened(h) then Apply(h, Listening, os) else h;
    ApplyFinds(h1, Deadline(OutputAt(h1, h1.inner.output)), os);
  }

  lemma {:induction false} PhaseTellsTheAnswer(turns: seq<Turn>)
    ensures TellsTheAnswer(At(turns).host.inner.state.phase, LastAnswer(turns))
    decreases |turns|
  {
    hide MoveOnce, HostInv, TellsTheAnswer;
    if turns == [] {
      NothingAnswered();
    } else {
      PhaseTellsTheAnswer(Before(turns));
      ServerKeepsInv(Before(turns));
      LastTurn(turns);
      var w, last := At(Before(turns)), LastAnswer(Before(turns));
      match Latest(turns) {
        case ServerTurn(m, os) => MoveFinds(w.host, m, os, last);
        case JobTurn(m, os) =>
          MoveFinds(w.host, JobBegins, os, last);
          MoveFinds(w.host, JobGuardDropped, os, last);
      }
    }
  }

  lemma NothingAnswered()
    ensures TellsTheAnswer(At([]).host.inner.state.phase, None)
  {
  }

  /** On every run the screens are told that a Message Crate was found, or that the
      port is taken, only when the last answer waited for said so. */
  lemma StatusTellsTheLastAnswer(turns: seq<Turn>)
    ensures Told(At(turns).host) == Ready(false) ==> LastAnswer(turns) == Some(MessageCrate)
    ensures Told(At(turns).host) == Down(true, "") ==> LastAnswer(turns) == Some(Other)
  {
    PhaseTellsTheAnswer(turns);
  }

  // ----- Jobs ------------------------------------------------------------------------------

  /** How a job's body ended, once it has. */
  function EndOf(at: Jobs.At): Option<Outcome> {
    match at
    case BodyOver(outcome) => Some(outcome)
    case SlotFreed(outcome) => Some(outcome)
    case GuardDropped(outcome) => Some(outcome)
    case Reported(outcome) => Some(outcome)
    case _ => None
  }

  lemma {:induction false} EndsAreTheBodies(turns: seq<Turn>, j: nat)
    requires j < |At(turns).slots.jobs| && EndOf(At(turns).slots.jobs[j].at).Some?
    ensures exists os :: JobTurn(BodyEnds(j, EndOf(At(turns).slots.jobs[j].at).value), os) in turns
    decreases |turns|
  {
    hide MoveOnce;
    var before := At(Before(turns)).slots;
    LastTurn(turns);
    assert turns == Before(turns) + [Latest(turns)];
    if j < |before.jobs| && EndOf(before.jobs[j].at).Some? {
      EndsAreTheBodies(Before(turns), j);
      var os :| JobTurn(BodyEnds(j, EndOf(before.jobs[j].at).value), os) in Before(turns);
      assert JobTurn(BodyEnds(j, EndOf(before.jobs[j].at).value), os) in turns;
    } else {
      assert Latest(turns) in turns;
      assert Latest(turns) == JobTurn(BodyEnds(j, EndOf(At(turns).slots.jobs[j].at).value), Latest(turns).os);
    }
  }

  /** On every run a job has sent the finished event only if its body returned
      well, and the error event only if it did not or panicked; it sent no other. */
  lemma EventsTellTheOutcome(turns: seq<Turn>, j: nat)
    ensures var s := At(turns).slots;
            && ((j, FinishedEvent) in s.emitted <==> j < |s.jobs| && s.jobs[j].at == Reported(Returned(true)))
            && ((j, ErrorEvent) in s.emitted <==>
                  j < |s.jobs| && (s.jobs[j].at == Reported(Returned(false)) || s.jobs[j].at == Reported(Panicked)))
            && ((j, FinishedEvent) in s.emitted ==> exists os :: JobTurn(BodyEnds(j, Returned(true)), os) in turns)
            && ((j, ErrorEvent) in s.emitted ==>
                  exists os :: JobTurn(BodyEnds(j, Returned(false)), os) in turns
                               || JobTurn(BodyEnds(j, Panicked), os) in turns)
  {
    JobSlotProtocol(turns);
    var s := At(turns).slots;
    EventsSayHowBodiesEnded(s, j);
    if j < |s.jobs| && s.jobs[j].at.Reported? {
      EndsAreTheBodies(turns, j);
    }
  }

  // ----- Readers ---------------------------------------------------------------------------

  /** On every run a server that has ended can have its readers end, after which
      its exit is reported. */
  lemma EndedServersCanBeReported(turns: seq<Turn>, i: nat) returns (stdout: nat, stderr: nat)
    requires i < |At(turns).host.procs| && !At(turns).host.procs[i].running
    ensures Drained(Read(Read(At(turns).host.procs[i].pipes, Stdout, stdout), Stderr, stderr))
  {
    WorldKeepsInv(turns);
    RunGrows(INITIAL_WORLD, turns);
    assert At(turns).host.procs[i] in At(turns).host.procs;
    stdout, stderr := ReadersCanEnd(At(turns).host.procs[i].pipes);
  }
}
