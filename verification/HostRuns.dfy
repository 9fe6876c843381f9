/** What single moves of `Host` do to generations, probes, output and jobs, for
    the theorems about whole runs of the desktop. */
module HostRuns {
  import opened Text
  import opened Supervisor
  import opened Output
  import opened Host
  import opened Ownership

  // ----- Output ----------------------------------------------------------------

  lemma PerformKeepsOutputs(h: Host, a: Action, os: Os)
    requires Outputs(h)
    ensures Outputs(Perform(h, a, os).0)
  {
    hide PipesInv;
    var t := Perform(h, a, os).0;
    forall p <- t.procs ensures PipesInv(p.pipes) {
      var i :| 0 <= i < |t.procs| && t.procs[i] == p;
      if i < |h.procs| {
        assert h.procs[i] in h.procs;
        CloseKeepsInv(h.procs[i].pipes);
      } else {
        NewPipesInv();
      }
    }
  }

  lemma NewPipesInv()
    ensures PipesInv(NEW_PIPES)
  {
    assert TakenLines(NEW_PIPES, Stdout) == [] && TakenLines(NEW_PIPES, Stderr) == [];
  }

  lemma {:induction false} ActionsKeepOutputs(h: Host, actions: seq<Action>, os: Os)
    requires Outputs(h)
    ensures Outputs(PerformAll(h, actions, os).0)
    decreases |actions|
  {
    hide Outputs, Perform;
    if actions != [] {
      PerformKeepsOutputs(h, actions[0], os);
      ActionsKeepOutputs(Perform(h, actions[0], os).0, actions[1..], os);
    }
  }

  lemma ApplyKeepsOutputs(h: Host, e: Event, os: Os)
    requires Outputs(h)
    ensures Outputs(Apply(h, e, os))
  {
    hide Step, PerformAll, PipesInv;
    var (s, actions) := Step(h.inner.state, e);
    ActionsKeepOutputs(WithState(h, s), actions, os);
  }

  lemma MoveKeepsOutputs(h: Host, m: Move, os: Os)
    requires Outputs(h)
    ensures Outputs(MoveOnce(h, m, os))
  {
    hide Apply, PipesInv, Write, Take, Keep, Close;
    match m {
      case EnsureStarted(launch, first) =>
        var phase := h.inner.state.phase;
        var firstTime := if Settled(phase) || phase.Found? then first else h.inner.firstTime;
        ApplyKeepsOutputs(h.(inner := h.inner.(firstTime := firstTime, launch := Some(launch))),
                          Requested(launch.openToNetwork), os);
      case SetOpen(open) => ApplyKeepsOutputs(h, Configured(open), os);
      case AskStatus => ApplyKeepsOutputs(h, Check, os);
      case JobBegins => ApplyKeepsOutputs(h, JobStarted, os);
      case JobGuardDropped => ApplyKeepsOutputs(h, JobEnded, os);
      case Stop => ApplyKeepsOutputs(h, Stopped, os);
      case ProbeAnswers(answer) =>
        if h.probes > 0 {
          ApplyKeepsOutputs(h.(probes := h.probes - 1), Probed(answer), os);
        }
      case Poll(i, heard, late) =>
        if i < |h.watchers| {
          PollKeepsOutputs(h, i, heard, late, os);
        }
      case Report(i) =>
        if i < |h.watchers| && h.watchers[i].at.Reaping? {
          ApplyKeepsOutputs(WithWatcher(h, i, Gone), ChildExited(OutputAt(h, h.watchers[i].at.output)), os);
        }
      case Writes(pid, s, item) =>
        if pid < |h.procs| {
          assert h.procs[pid] in h.procs;
          WriteKeepsInv(h.procs[pid].pipes, s, item);
          ReplacedPipes(h, pid, h.procs[pid].(pipes := Write(h.procs[pid].pipes, s, item)));
        }
      case Exits(pid) =>
        if pid < |h.procs| {
          assert h.procs[pid] in h.procs;
          CloseKeepsInv(h.procs[pid].pipes);
          ReplacedPipes(h, pid, AfterExit(h.procs[pid]));
        }
      case Takes(pid, s) =>
        if pid < |h.procs| {
          assert h.procs[pid] in h.procs;
          TakeKeepsInv(h.procs[pid].pipes, s);
          ReplacedPipes(h, pid, h.procs[pid].(pipes := Take(h.procs[pid].pipes, s)));
        }
      case Keeps(pid, s) =>
        if pid < |h.procs| {
          assert h.procs[pid] in h.procs;
          KeepKeepsInv(h.procs[pid].pipes, s);
          ReplacedPipes(h, pid, h.procs[pid].(pipes := Keep(h.procs[pid].pipes, s)));
        }
    }
  }

  lemma ReplacedPipes(h: Host, pid: nat, p: Process)
    requires Outputs(h) && pid < |h.procs| && PipesInv(p.pipes)
    ensures Outputs(h.(procs := h.procs[pid := p]))
  {
    hide PipesInv;
    forall q <- h.procs[pid := p] ensures PipesInv(q.pipes) {
      assert q == p || q in h.procs;
    }
  }

  lemma PollKeepsOutputs(h: Host, i: nat, heard: bool, late: bool, os: Os)
    requires Outputs(h) && i < |h.watchers|
    ensures Outputs(PollOnce(h, i, heard, late, os))
  {
    hide Apply, PipesInv;
    if heard && HasListened(h) {
      ApplyKeepsOutputs(h, Listening, os);
    }
    var h1 := if heard && HasListened(h) then Apply(h, Listening, os) else h;
    ApplyKeepsOutputs(h1, Deadline(OutputAt(h1, h1.inner.output)), os);
  }

  // ----- Generations -----------------------------------------------------------

  predicate BothClosed(p: Process) {
    p.pipes.stdout.closed && p.pipes.stderr.closed
  }

  /** Nothing is taken back: generations grow, the history of processes grows,
      and a process that ended does not run again, its pipes closed. */
  predicate Grows(h: Host, t: Host) {
    && h.inner.generation <= t.inner.generation
    && |h.procs| <= |t.procs| && |h.watchers| <= |t.watchers|
    && (forall i | 0 <= i < |h.procs| ::
          && t.procs[i].generation == h.procs[i].generation
          && t.procs[i].launch == h.procs[i].launch
          && (t.procs[i].running ==> h.procs[i].running)
          && (!t.procs[i].running && (h.procs[i].running || BothClosed(h.procs[i])) ==> BothClosed(t.procs[i])))
    && (forall i | |h.procs| <= i < |t.procs| :: !t.procs[i].running ==> BothClosed(t.procs[i]))
    && (forall i | 0 <= i < |h.watchers| :: t.watchers[i].generation == h.watchers[i].generation)
    && (forall i | |h.procs| <= i < |t.procs| :: t.procs[i].generation > h.inner.generation)
  }

  /** Only its own watcher moves a watcher on. */
  predicate WatchersStay(h: Host, t: Host) {
    |h.watchers| <= |t.watchers| && forall i | 0 <= i < |h.watchers| :: t.watchers[i] == h.watchers[i]
  }

  lemma {:induction false} ActionsGrow(h: Host, actions: seq<Action>, os: Os)
    ensures Grows(h, PerformAll(h, actions, os).0) && WatchersStay(h, PerformAll(h, actions, os).0)
    decreases |actions|
  {
    if actions != [] {
      var h1 := Perform(h, actions[0], os).0;
      ActionGrows(h, actions[0], os);
      ActionsGrow(h1, actions[1..], os);
      GrowsOn(h, h1, PerformAll(h1, actions[1..], os).0);
    }
  }

  lemma ActionGrows(h: Host, a: Action, os: Os)
    ensures Grows(h, Perform(h, a, os).0) && WatchersStay(h, Perform(h, a, os).0)
  {
  }

  lemma GrowsOn(h: Host, t: Host, u: Host)
    requires Grows(h, t) && Grows(t, u)
    ensures Grows(h, u)
  {
  }

  lemma ApplyGrows(h: Host, e: Event, os: Os)
    ensures Grows(h, Apply(h, e, os)) && WatchersStay(h, Apply(h, e, os))
  {
    hide Step, PerformAll;
    var (s, actions) := Step(h.inner.state, e);
    ActionsGrow(WithState(h, s), actions, os);
  }

  /** Which watcher a move is the work of. */
  predicate WorkOf(m: Move, i: nat) {
    (m.Poll? || m.Report?) && m.watcher == i
  }

  lemma MoveGrows(h: Host, m: Move, os: Os)
    ensures Grows(h, MoveOnce(h, m, os))
    ensures forall i | 0 <= i < |h.watchers| && !WorkOf(m, i) ::
              MoveOnce(h, m, os).watchers[i] == h.watchers[i]
  {
    hide Apply, Write, Take, Keep, Close, PollOnce, BothClosed;
    match m {
      case EnsureStarted(launch, first) =>
        var phase := h.inner.state.phase;
        var firstTime := if Settled(phase) || phase.Found? then first else h.inner.firstTime;
        ApplyGrows(h.(inner := h.inner.(firstTime := firstTime, launch := Some(launch))),
                   Requested(launch.openToNetwork), os);
      case SetOpen(open) => ApplyGrows(h, Configured(open), os);
      case AskStatus => ApplyGrows(h, Check, os);
      case JobBegins => ApplyGrows(h, JobStarted, os);
      case JobGuardDropped => ApplyGrows(h, JobEnded, os);
      case Stop => ApplyGrows(h, Stopped, os);
      case ProbeAnswers(answer) =>
        if h.probes > 0 {
          ApplyGrows(h.(probes := h.probes - 1), Probed(answer), os);
        }
      case Poll(i, heard, late) =>
        if i < |h.watchers| {
          PollGrows(h, i, heard, late, os);
        }
      case Report(i) =>
        if i < |h.watchers| && h.watchers[i].at.Reaping? {
          ApplyGrows(WithWatcher(h, i, Gone), ChildExited(OutputAt(h, h.watchers[i].at.output)), os);
        }
      case _ => ProcessMoveGrows(h, m, os);
    }
  }

  lemma ProcessMoveGrows(h: Host, m: Move, os: Os)
    requires m.Writes? || m.Exits? || m.Takes? || m.Keeps?
    ensures Grows(h, MoveOnce(h, m, os)) && MoveOnce(h, m, os).watchers == h.watchers
  {
    hide Write, Take, Keep, Close, Grows;
    GrowsAlone(h);
    match m {
      case Writes(pid, s, item) =>
        if pid < |h.procs| {
          WritingLeavesClosed(h.procs[pid].pipes, s, item);
          OneProcessGrows(h, pid, h.procs[pid].(pipes := Write(h.procs[pid].pipes, s, item)));
        }
      case Exits(pid) =>
        if pid < |h.procs| {
          CloseCloses(h.procs[pid].pipes);
          OneProcessGrows(h, pid, AfterExit(h.procs[pid]));
        }
      case Takes(pid, s) =>
        if pid < |h.procs| {
          ReadingLeavesClosed(h.procs[pid].pipes, s);
          OneProcessGrows(h, pid, h.procs[pid].(pipes := Take(h.procs[pid].pipes, s)));
        }
      case Keeps(pid, s) =>
        if pid < |h.procs| {
          ReadingLeavesClosed(h.procs[pid].pipes, s);
          OneProcessGrows(h, pid, h.procs[pid].(pipes := Keep(h.procs[pid].pipes, s)));
        }
    }
  }

  lemma GrowsAlone(h: Host)
    ensures Grows(h, h)
  {
  }

  lemma OneProcessGrows(h: Host, pid: nat, p: Process)
    requires pid < |h.procs|
    requires p.generation == h.procs[pid].generation && p.launch == h.procs[pid].launch
    requires p.running ==> h.procs[pid].running
    requires !p.running && (h.procs[pid].running || BothClosed(h.procs[pid])) ==> BothClosed(p)
    ensures Grows(h, h.(procs := h.procs[pid := p]))
  {
  }

  lemma WritingLeavesClosed(p: Pipes, s: Stream, item: Item)
    ensures Write(p, s, item).stdout.closed == p.stdout.closed && Write(p, s, item).stderr.closed == p.stderr.closed
  {
  }

  lemma CloseCloses(p: Pipes)
    ensures Close(p).stdout.closed && Close(p).stderr.closed
  {
  }

  lemma ReadingLeavesClosed(p: Pipes, s: Stream)
    ensures Take(p, s).stdout.closed == p.stdout.closed && Take(p, s).stderr.closed == p.stderr.closed
    ensures Keep(p, s).stdout.closed == p.stdout.closed && Keep(p, s).stderr.closed == p.stderr.closed
  {
    hide StartsWith, Push;
  }


  lemma PollGrows(h: Host, i: nat, heard: bool, late: bool, os: Os)
    requires i < |h.watchers|
    ensures Grows(h, PollOnce(h, i, heard, late, os))
    ensures forall k | 0 <= k < |h.watchers| && k != i ::
              k < |PollOnce(h, i, heard, late, os).watchers|
              && PollOnce(h, i, heard, late, os).watchers[k] == h.watchers[k]
  {
    hide Apply;
    ApplyGrows(h, Listening, os);
    var h1 := if heard && HasListened(h) then Apply(h, Listening, os) else h;
    ApplyGrows(h1, Deadline(OutputAt(h1, h1.inner.output)), os);
    GrowsOn(h, h1, Apply(h1, Deadline(OutputAt(h1, h1.inner.output)), os));
  }

  /** The watcher of a server that was killed or replaced does nothing but end,
      from its poll or from its wait for the readers alike. */
  lemma StaleWatcherIsSilent(h: Host, i: nat, m: Move, os: Os)
    requires i < |h.watchers| && h.watchers[i].generation != h.inner.generation
    requires WorkOf(m, i)
    ensures MoveOnce(h, m, os) in {h, WithWatcher(h, i, Gone)}
  {
  }

  // ----- Probes ----------------------------------------------------------------

  function Asking(h: Host): nat {
    if Waiting(h.inner.state.phase) then 1 else 0
  }

  /** A probe is under way whenever its answer is waited for, and beyond that
      only those a stop left behind. */
  predicate ProbesInv(h: Host, stops: nat) {
    Asking(h) <= h.probes <= stops + Asking(h)
  }

  lemma StepProbes(s: State, e: Event)
    requires !e.SpawnFailed?
    ensures var (t, actions) := Step(s, e);
            var asks := if actions == [Probe] || actions == [ProbeLater] then 1 else 0;
            var before := if Waiting(s.phase) && !e.Probed? then 1 else 0;
            var after := if Waiting(t.phase) then 1 else 0;
            if e.Stopped? then asks == 0 && after == 0 else asks + before == after
  {
  }

  lemma SpawnLeavesProbes(h: Host, open: bool, os: Os)
    ensures SpawnServer(h, open, os).0.probes == h.probes
    ensures SpawnServer(h, open, os).0.inner.state == h.inner.state
  {
  }

  lemma ApplyProbes(h: Host, e: Event, os: Os)
    requires HostInv(h) && !e.SpawnFailed? && (e.Requested? ==> h.inner.launch.Some?)
    ensures var t := Apply(h, e, os);
            var before := if e.Probed? then 0 else Asking(h);
            if e.Stopped? then t.probes == h.probes && Asking(t) == 0
            else t.probes + before == h.probes + Asking(t)
  {
    hide Step, Apply, HostInv, Converged;
    var (s, actions) := Step(h.inner.state, e);
    StepProbes(h.inner.state, e);
    StepFacts(h.inner.state, e);
    assert h.inner.state.phase != Idle ==> h.inner.launch.Some? by { LaunchKnown(h); }
    if actions == [Kill] {
      ApplyKills(h, e, os);
    } else if LooksOnly(actions) {
      ApplyLooksOnly(h, e, os);
      AskedNeedsAPhase(h.inner.state, e);
    } else {
      StartProbes(h, e, s.wantedOpen, os);
    }
  }

  lemma LaunchKnown(h: Host)
    requires HostInv(h)
    ensures h.inner.state.phase != Idle ==> h.inner.launch.Some?
  {
  }

  lemma AskedNeedsAPhase(s: State, e: Event)
    requires Step(s, e).1 == [Probe] || Step(s, e).1 == [ProbeLater] || Step(s, e).1 == []
    ensures Step(s, e).1 != [] ==> s.phase != Idle || e.Requested?
  {
  }

  lemma StartProbes(h: Host, e: Event, open: bool, os: Os)
    requires Starts(Step(h.inner.state, e).1, open)
    ensures Apply(h, e, os).probes == h.probes && Asking(Apply(h, e, os)) == 0
  {
    hide Step, Apply, SpawnServer, BeforeStart, Converged;
    StepFacts(h.inner.state, e);
    ApplySpawns(h, e, open, os);
    var b := BeforeStart(h, e);
    BeforeStartAsksNothing(h, e);
    SpawnLeavesProbes(b, open, os);
    var (t, error) := SpawnServer(b, open, os);
    if error.Some? {
      StepFacts(t.inner.state, SpawnFailed(error.value));
      FailedStartAsksNothing(t.inner.state, error.value);
    }
  }

  lemma BeforeStartAsksNothing(h: Host, e: Event)
    ensures BeforeStart(h, e).probes == h.probes && BeforeStart(h, e).inner.state == Step(h.inner.state, e).0
  {
    hide Step;
  }

  lemma FailedStartAsksNothing(s: State, error: string)
    requires s.phase.Starting?
    ensures Step(s, SpawnFailed(error)).0 == s.(phase := Failed(NotStarted, error))
  {
  }

  lemma MoveKeepsProbes(h: Host, m: Move, os: Os, stops: nat)
    requires HostInv(h) && ProbesInv(h, stops)
    ensures ProbesInv(MoveOnce(h, m, os), if m.Stop? then stops + 1 else stops)
  {
    hide Apply, HostInv, PollOnce;
    match m {
      case EnsureStarted(launch, first) =>
        var phase := h.inner.state.phase;
        var firstTime := if Settled(phase) || phase.Found? then first else h.inner.firstTime;
        var h1 := h.(inner := h.inner.(firstTime := firstTime, launch := Some(launch)));
        assert HostInv(h1) by { LaunchAside(h, firstTime, launch); }
        ApplyProbes(h1, Requested(launch.openToNetwork), os);
      case SetOpen(open) => ApplyProbes(h, Configured(open), os);
      case AskStatus => ApplyProbes(h, Check, os);
      case JobBegins => ApplyProbes(h, JobStarted, os);
      case JobGuardDropped => ApplyProbes(h, JobEnded, os);
      case Stop => ApplyProbes(h, Stopped, os);
      case ProbeAnswers(answer) =>
        if h.probes > 0 {
          var h1 := h.(probes := h.probes - 1);
          assert HostInv(h1) by { ProbesAside(h, h.probes - 1); }
          ApplyProbes(h1, Probed(answer), os);
        }
      case Poll(i, heard, late) =>
        if i < |h.watchers| && h.watchers[i].at.Polling? {
          PollProbes(h, i, heard, late, os);
        }
      case Report(i) =>
        if i < |h.watchers| && h.watchers[i].at.Reaping? {
          ReportProbes(h, i, os);
        }
      case _ =>
    }
  }

  lemma LaunchAside(h: Host, firstTime: bool, launch: Launch)
    requires HostInv(h)
    ensures HostInv(h.(inner := h.inner.(firstTime := firstTime, launch := Some(launch))))
  {
  }

  lemma ProbesAside(h: Host, probes: nat)
    requires HostInv(h)
    ensures HostInv(h.(probes := probes))
  {
  }

  lemma PollProbes(h: Host, i: nat, heard: bool, late: bool, os: Os)
    requires HostInv(h) && i < |h.watchers| && h.watchers[i].at.Polling?
    ensures var t := PollOnce(h, i, heard, late, os); t.probes + Asking(h) == h.probes + Asking(t)
  {
    hide Apply;
    if h.watchers[i].generation == h.inner.generation && !ChildExitedBy(h) {
      assert i == |h.procs| - 1;
      var h1 := if heard && HasListened(h) then Apply(h, Listening, os) else h;
      if heard && HasListened(h) {
        ApplyKeepsInv(h, Listening, os);
        ApplyProbes(h, Listening, os);
      }
      if late && h1.inner.state.phase.Starting? {
        ApplyProbes(h1, Deadline(OutputAt(h1, h1.inner.output)), os);
      }
    }
  }

  lemma ReportProbes(h: Host, i: nat, os: Os)
    requires HostInv(h) && i < |h.watchers| && h.watchers[i].at.Reaping?
    ensures var t := ReportExit(h, i, os); t.probes + Asking(h) == h.probes + Asking(t)
  {
    hide Apply, Step;
    if h.watchers[i].generation == h.inner.generation {
      var h1 := WithWatcher(h, i, Gone);
      var e := ChildExited(OutputAt(h, h.watchers[i].at.output));
      StepFacts(h1.inner.state, e);
      StepProbes(h1.inner.state, e);
      ApplyLooksOnly(h1, e, os);
      AskedNeedsAPhase(h1.inner.state, e);
    }
  }

  // ----- Jobs ------------------------------------------------------------------

  lemma StepJobs(s: State, e: Event)
    ensures Step(s, e).0.jobs == JobsAfter(s, e)
  {
  }

  lemma {:induction false} ActionsLeaveState(h: Host, actions: seq<Action>, os: Os)
    ensures PerformAll(h, actions, os).0.inner.state == h.inner.state
    decreases |actions|
  {
    if actions != [] {
      ActionsLeaveState(Perform(h, actions[0], os).0, actions[1..], os);
    }
  }

  lemma ApplyJobs(h: Host, e: Event, os: Os)
    ensures Apply(h, e, os).inner.state.jobs == JobsAfter(h.inner.state, e)
  {
    hide Step, PerformAll;
    var (s, actions) := Step(h.inner.state, e);
    StepJobs(h.inner.state, e);
    ActionsLeaveState(WithState(h, s), actions, os);
    var (h1, failed) := PerformAll(WithState(h, s), actions, os);
    AtMostOneFailure(WithState(h, s), h.inner.state, e, os);
    if failed != [] {
      assert failed[0] in failed;
      StepJobs(h1.inner.state, failed[0]);
    }
  }

  /** Only jobs starting and ending count jobs. */
  lemma MoveJobs(h: Host, m: Move, os: Os)
    requires !m.JobBegins? && !m.JobGuardDropped?
    ensures MoveOnce(h, m, os).inner.state.jobs == h.inner.state.jobs
  {
    hide Apply;
    match m {
      case EnsureStarted(launch, first) =>
        var phase := h.inner.state.phase;
        var firstTime := if Settled(phase) || phase.Found? then first else h.inner.firstTime;
        ApplyJobs(h.(inner := h.inner.(firstTime := firstTime, launch := Some(launch))),
                  Requested(launch.openToNetwork), os);
      case SetOpen(open) => ApplyJobs(h, Configured(open), os);
      case AskStatus => ApplyJobs(h, Check, os);
      case Stop => ApplyJobs(h, Stopped, os);
      case ProbeAnswers(answer) =>
        if h.probes > 0 {
          ApplyJobs(h.(probes := h.probes - 1), Probed(answer), os);
        }
      case Poll(i, heard, late) =>
        ApplyJobs(h, Listening, os);
        var h1 := if heard && HasListened(h) then Apply(h, Listening, os) else h;
        ApplyJobs(h1, Deadline(OutputAt(h1, h1.inner.output)), os);
      case Report(i) =>
        if i < |h.watchers| && h.watchers[i].at.Reaping? {
          ApplyJobs(WithWatcher(h, i, Gone), ChildExited(OutputAt(h, h.watchers[i].at.output)), os);
        }
      case _ =>
    }
  }
}
