/** What holds on every run of the desktop from its start, however its threads
    interleave. */
module Guarantees {
  import opened Text
  import opened Supervisor
  import opened Output
  import opened Host
  import opened Ownership
  import opened HostRuns
  import opened Jobs
  import opened Desktop

  /** The desktop after `turns`. */
  function World(turns: seq<Turn>): World {
    Run(INITIAL_WORLD, turns)
  }

  lemma WorldKeepsInv(turns: seq<Turn>)
    ensures WorldInv(World(turns))
  {
    hide WorldInv;
    InitialInv();
    RunKeepsInv(INITIAL_WORLD, turns);
  }

  /** The part of the invariant about the server and its processes. */
  lemma ServerKeepsInv(turns: seq<Turn>)
    ensures var w := World(turns); HostInv(w.host) && w.host.inner.state.jobs == Guards(w.slots.jobs)
  {
    hide HostInv, Outputs, ProbesInv, ReportsInv, SlotsInv;
    WorldKeepsInv(turns);
  }

  // ----- Processes --------------------------------------------------------------

  /** The app never has two servers running, and never one it does not hold: a
      running one is `child`, started the way the phase says, and a phase that
      says one is there either holds it or waits for its watcher's report. */
  lemma OneServerAndItIsHeld(turns: seq<Turn>)
    ensures var h := World(turns).host;
            && |h.watchers| == |h.procs|
            && (forall i | 0 <= i < |h.procs| && h.procs[i].running :: h.inner.child == Some(i))
            && (h.inner.child.Some? ==>
                  && h.inner.child.value == |h.procs| - 1
                  && Held(h.inner.state.phase)
                  && Newest(h).launch.openToNetwork == h.inner.state.phase.open)
            && (Held(h.inner.state.phase) ==>
                  && Current(h)
                  && (h.inner.child.Some? || h.watchers[|h.procs| - 1].at.Reaping?))
  {
    hide WorldInv;
    ServerKeepsInv(turns);
  }

  /** The screens are told the app's own server is ready only when the newest
      server, neither killed nor replaced, itself wrote that it listens. */
  lemma ReadyMeansItListened(turns: seq<Turn>)
    ensures var h := World(turns).host;
            StatusOf(h.inner) == Ready(true) ==>
              && Current(h)
              && (AnyListening(TakenLines(Newest(h).pipes, Stdout))
                  || AnyListening(TakenLines(Newest(h).pipes, Stderr)))
  {
    WorldKeepsInv(turns);
    var h := World(turns).host;
    if h.inner.state.phase.Own? {
      assert Newest(h) in h.procs;
    }
  }

  /** A running server listens on every address exactly when the person's
      setting says so, unless it is ready and a job defers the restart. */
  lemma RunningServerObeysTheSetting(turns: seq<Turn>)
    ensures var w := World(turns); var h := w.host;
            forall i | 0 <= i < |h.procs| && h.procs[i].running ::
              && Held(h.inner.state.phase)
              && (h.inner.state.phase.Starting? || Guards(w.slots.jobs) == 0 ==>
                    (Bind(h.procs[i].launch).ip == EVERY_ADDRESS <==>
                      h.inner.state.wantedOpen || h.procs[i].launch.address.ip == EVERY_ADDRESS))
  {
    hide WorldInv, HostInv, Run, Converged;
    ServerKeepsInv(turns);
    var h := World(turns).host;
    forall i | 0 <= i < |h.procs| && h.procs[i].running
      ensures Held(h.inner.state.phase)
      ensures h.inner.state.phase.Starting? || h.inner.state.jobs == 0 ==>
                h.procs[i].launch.openToNetwork == h.inner.state.wantedOpen
    {
      RunningAsWanted(h, i);
    }
  }

  lemma RunningAsWanted(h: Host, i: nat)
    requires HostInv(h) && i < |h.procs| && h.procs[i].running
    ensures Held(h.inner.state.phase)
    ensures h.inner.state.phase.Starting? || h.inner.state.jobs == 0 ==>
              h.procs[i].launch.openToNetwork == h.inner.state.wantedOpen
  {
    assert h.inner.child == Some(i);
  }

  // ----- Generations ------------------------------------------------------------

  /** Every generation reports at most one exit. */
  lemma EachServerExitsOnce(turns: seq<Turn>)
    ensures var r := World(turns).reports; forall i, j | 0 <= i < j < |r| :: r[i] < r[j]
  {
    WorldKeepsInv(turns);
  }

  lemma TurnGrows(w: World, turn: Turn)
    ensures Grows(w.host, Turned(w, turn).host)
  {
    hide MoveOnce;
    match turn {
      case ServerTurn(m, os) => MoveGrows(w.host, m, os);
      case JobTurn(m, os) =>
        MoveGrows(w.host, JobBegins, os);
        MoveGrows(w.host, JobGuardDropped, os);
    }
  }

  lemma {:induction false} RunGrows(w: World, turns: seq<Turn>)
    ensures Grows(w.host, Run(w, turns).host)
    decreases |turns|
  {
    hide Turned, Grows;
    if turns != [] {
      TurnGrows(w, turns[0]);
      RunGrows(Turned(w, turns[0]), turns[1..]);
      GrowsOn(w.host, Turned(w, turns[0]).host, Run(w, turns).host);
    } else {
      GrowsAlone(w.host);
    }
  }

  /** From the moment its server is killed or replaced, a watcher never acts
      again, not even one that was joining the readers at that moment. */
  lemma KilledServersWatcherStaysSilent(turns: seq<Turn>, more: seq<Turn>, i: nat, m: Move, os: Os)
    requires i < |World(turns).host.watchers|
    requires World(turns).host.watchers[i].generation != World(turns).host.inner.generation
    requires WorkOf(m, i)
    ensures var h := Run(World(turns), more).host;
            i < |h.watchers| && MoveOnce(h, m, os) in {h, WithWatcher(h, i, Gone)}
  {
    hide MoveOnce;
    WorldKeepsInv(turns);
    RunGrows(World(turns), more);
    StaleWatcherIsSilent(Run(World(turns), more).host, i, m, os);
  }

  // ----- Probes -----------------------------------------------------------------

  /** An answer that is waited for is always on its way, and besides it only
      probes that a stop left behind. With no stop the count is exact. */
  lemma ProbesAreNeitherLostNorDoubled(turns: seq<Turn>)
    ensures var w := World(turns);
            && (Waiting(w.host.inner.state.phase) ==> w.host.probes >= 1)
            && w.host.probes <= w.stops + (if Waiting(w.host.inner.state.phase) then 1 else 0)
            && (w.stops == 0 ==> (w.host.probes == if Waiting(w.host.inner.state.phase) then 1 else 0))
  {
    WorldKeepsInv(turns);
  }

  // ----- Output -----------------------------------------------------------------

  /** What an exit is reported with: the last lines of all that the server's two
      pipes carried, up to unreadable bytes, in one order of both. */
  lemma ExitReportCarriesTheOutput(turns: seq<Turn>, i: nat, os: Os)
    requires ReportsExit(World(turns).host, Report(i))
    ensures i < |World(turns).host.procs|
    ensures var h := World(turns).host; var p := h.procs[i].pipes;
            var phase := MoveOnce(h, Report(i), os).inner.state.phase;
            && (phase.Lost? || phase.Failed?)
            && phase.details == JoinLines(LastLines(Texts(p.kept)))
            && From(p.kept, Stdout) == Readable(p.stdout.written)
            && From(p.kept, Stderr) == Readable(p.stderr.written)
  {
    WorldKeepsInv(turns);
    var h := World(turns).host;
    assert h.procs[i] in h.procs;
    DrainedOutputIsWhole(h.procs[i].pipes);
    ReportTellsDetails(h, i, os);
  }

  lemma ReportTellsDetails(h: Host, i: nat, os: Os)
    requires HostInv(h) && ReportsExit(h, Report(i))
    ensures var phase := MoveOnce(h, Report(i), os).inner.state.phase;
            && (phase.Lost? || phase.Failed?)
            && phase.details == JoinLines(h.procs[i].pipes.lines)
  {
    hide Apply;
    ApplyLooksOnly(WithWatcher(h, i, Gone), ChildExited(OutputAt(h, h.watchers[i].at.output)), os);
  }

  // ----- Stopping ---------------------------------------------------------------

  predicate IsRequest(turn: Turn) {
    turn.ServerTurn? && turn.move.EnsureStarted?
  }

  predicate IsStop(turn: Turn) {
    turn.ServerTurn? && turn.move.Stop?
  }

  /** While settled, an event other than a request changes no phase and starts
      nothing. */
  lemma SettledApply(h: Host, e: Event, os: Os)
    requires Settled(h.inner.state.phase) && !e.Requested?
    ensures Apply(h, e, os) == WithState(h, Step(h.inner.state, e).0)
    ensures Step(h.inner.state, e).0.phase == h.inner.state.phase
  {
  }

  lemma SettledMove(h: Host, m: Move, os: Os)
    requires Settled(h.inner.state.phase) && !m.EnsureStarted?
    ensures MoveOnce(h, m, os).inner.state.phase == h.inner.state.phase
    ensures |MoveOnce(h, m, os).procs| == |h.procs| && MoveOnce(h, m, os).probes <= h.probes
  {
    hide Apply, Step, Write, Take, Keep, Close;
    match m {
      case SetOpen(open) => SettledApply(h, Configured(open), os);
      case AskStatus => SettledApply(h, Check, os);
      case JobBegins => SettledApply(h, JobStarted, os);
      case JobGuardDropped => SettledApply(h, JobEnded, os);
      case Stop => SettledApply(h, Stopped, os);
      case ProbeAnswers(answer) =>
        if h.probes > 0 {
          SettledApply(h.(probes := h.probes - 1), Probed(answer), os);
        }
      case Poll(i, heard, late) => SettledApply(h, Listening, os);
      case Report(i) =>
        if i < |h.watchers| && h.watchers[i].at.Reaping? {
          SettledApply(WithWatcher(h, i, Gone), ChildExited(OutputAt(h, h.watchers[i].at.output)), os);
        }
      case _ =>
    }
  }

  lemma SettledTurn(w: World, turn: Turn)
    requires Settled(w.host.inner.state.phase) && !IsRequest(turn)
    ensures Turned(w, turn).host.inner.state.phase == w.host.inner.state.phase
    ensures |Turned(w, turn).host.procs| == |w.host.procs|
    ensures Turned(w, turn).host.probes <= w.host.probes
  {
    hide MoveOnce;
    match turn {
      case ServerTurn(m, os) => SettledMove(w.host, m, os);
      case JobTurn(m, os) =>
        SettledMove(w.host, JobBegins, os);
        SettledMove(w.host, JobGuardDropped, os);
    }
  }

  lemma {:induction false} SettledRun(w: World, turns: seq<Turn>)
    requires Settled(w.host.inner.state.phase)
    requires forall turn <- turns :: !IsRequest(turn)
    ensures Run(w, turns).host.inner.state.phase == w.host.inner.state.phase
    ensures |Run(w, turns).host.procs| == |w.host.procs|
    ensures Run(w, turns).host.probes <= w.host.probes
    decreases |turns|
  {
    hide Turned;
    if turns != [] {
      assert turns[0] in turns;
      SettledTurn(w, turns[0]);
      SettledRun(Turned(w, turns[0]), turns[1..]);
    }
  }

  /** After a stop nothing runs, nothing is started and nothing is asked, whatever
      late answers, watchers, settings and jobs follow, until the next request. */
  lemma StopEndsEverything(turns: seq<Turn>, os: Os, more: seq<Turn>)
    requires forall turn <- more :: !IsRequest(turn)
    ensures var stopped := Turned(World(turns), ServerTurn(Stop, os));
            var w := Run(stopped, more);
            && Settled(w.host.inner.state.phase)
            && w.host.inner.state.phase == stopped.host.inner.state.phase
            && w.host.inner.child.None?
            && |w.host.procs| == |World(turns).host.procs|
            && w.host.probes <= World(turns).host.probes
            && (forall p <- w.host.procs :: !p.running)
  {
    hide WorldInv, Run, MoveOnce;
    var before := World(turns);
    var stopped := Turned(before, ServerTurn(Stop, os));
    WorldKeepsInv(turns);
    StopSettles(before.host, os);
    TurnKeepsInv(before, ServerTurn(Stop, os));
    SettledRun(stopped, more);
    RunKeepsInv(stopped, more);
    NothingRunsWhenSettled(Run(stopped, more));
  }

  lemma StopSettles(h: Host, os: Os)
    ensures Settled(MoveOnce(h, Stop, os).inner.state.phase)
    ensures |MoveOnce(h, Stop, os).procs| == |h.procs| && MoveOnce(h, Stop, os).probes == h.probes
  {
    hide Apply;
    if Held(h.inner.state.phase) {
      ApplyKills(h, Stopped, os);
    } else {
      ApplyLooksOnly(h, Stopped, os);
    }
  }

  lemma NothingRunsWhenSettled(w: World)
    requires WorldInv(w) && Settled(w.host.inner.state.phase)
    ensures w.host.inner.child.None? && forall p <- w.host.procs :: !p.running
  {
    VacantUnlessHeld(w.host);
  }

  /** Before the first request no server is ever started. */
  lemma NoServerBeforeTheFirstRequest(turns: seq<Turn>)
    requires forall turn <- turns :: !IsRequest(turn)
    ensures World(turns).host.procs == [] && World(turns).host.inner.state.phase == Idle
  {
    SettledRun(INITIAL_WORLD, turns);
  }

  // ----- Jobs -------------------------------------------------------------------

  /** One slot, each flag its own job's, one event for each job that ended, and
      the server counting exactly the jobs whose guard is alive. */
  lemma JobSlotProtocol(turns: seq<Turn>)
    ensures var w := World(turns); var s := w.slots;
            && (forall j, k | 0 <= j < |s.jobs| && 0 <= k < |s.jobs| ::
                  HoldsSlot(s.jobs[j].at) && HoldsSlot(s.jobs[k].at) ==> j == k)
            && (forall j: nat | j < |s.jobs| :: HoldsSlot(s.jobs[j].at) <==> s.slot == Some(j))
            && (forall j: nat | j < |s.jobs| :: s.jobs[j].cancelled <==> Some(j) in s.cancels)
            && EventsAreExact(s)
            && w.host.inner.state.jobs == Guards(s.jobs)
  {
    WorldKeepsInv(turns);
  }

  predicate PastBody(at: At) {
    at.BodyOver? || at.SlotFreed? || at.GuardDropped? || at.Reported?
  }

  lemma {:induction false} BodyEndsForGood(w: World, turns: seq<Turn>, j: nat)
    requires j < |w.slots.jobs| && PastBody(w.slots.jobs[j].at)
    ensures j < |Run(w, turns).slots.jobs| && PastBody(Run(w, turns).slots.jobs[j].at)
    decreases |turns|
  {
    hide MoveOnce;
    if turns != [] {
      BodyEndsForGood(Turned(w, turns[0]), turns[1..], j);
    }
  }

  /** In its ready phase, and while jobs remain, only a stop or its own exit
      does anything to the server. */
  lemma OwnIgnores(h: Host, e: Event, os: Os)
    requires h.inner.state.phase.Own? && JobsAfter(h.inner.state, e) >= 1
    requires !e.Stopped? && !e.ChildExited?
    ensures Apply(h, e, os) == WithState(h, Step(h.inner.state, e).0)
    ensures Step(h.inner.state, e).0.phase == h.inner.state.phase
  {
  }

  predicate ReadyWith(h: Host, pid: nat) {
    h.inner.state.phase.Own? && h.inner.child == Some(pid) && pid < |h.procs| && h.procs[pid].running
  }

  lemma OwnSurvives(h: Host, m: Move, os: Os, pid: nat)
    requires HostInv(h) && ReadyWith(h, pid)
    requires h.inner.state.jobs >= if m.JobGuardDropped? then 2 else 1
    requires !m.Stop? && m != Exits(pid)
    ensures ReadyWith(MoveOnce(h, m, os), pid)
    ensures MoveOnce(h, m, os).inner.state.phase == h.inner.state.phase
  {
    hide Apply, Step, Write, Take, Keep, Close;
    match m {
      case EnsureStarted(launch, first) =>
        OwnIgnores(h.(inner := h.inner.(launch := Some(launch))), Requested(launch.openToNetwork), os);
      case SetOpen(open) => OwnIgnores(h, Configured(open), os);
      case AskStatus => OwnIgnores(h, Check, os);
      case JobBegins => OwnIgnores(h, JobStarted, os);
      case JobGuardDropped => OwnIgnores(h, JobEnded, os);
      case ProbeAnswers(answer) =>
        if h.probes > 0 {
          OwnIgnores(h.(probes := h.probes - 1), Probed(answer), os);
        }
      case Poll(i, heard, late) => OwnIgnores(h, Listening, os);
      case Report(i) =>
      case _ =>
    }
  }

  lemma TurnProtects(w: World, turn: Turn, j: nat, pid: nat)
    requires WorldInv(w) && ReadyWith(w.host, pid)
    requires j < |w.slots.jobs| && w.slots.jobs[j].at.InBody?
    requires !IsStop(turn) && !(turn.ServerTurn? && turn.move == Exits(pid))
    requires j < |Turned(w, turn).slots.jobs| && Turned(w, turn).slots.jobs[j].at.InBody?
    ensures ReadyWith(Turned(w, turn).host, pid)
    ensures Turned(w, turn).host.inner.state.phase == w.host.inner.state.phase
  {
    hide MoveOnce, HostInv, Outputs, ProbesInv, ReportsInv;
    GuardIsCounted(w.slots.jobs, j);
    match turn {
      case ServerTurn(m, os) =>
        if !m.JobGuardDropped? {
          OwnSurvives(w.host, m, os, pid);
        }
      case JobTurn(m, os) =>
        GuardsAfterMove(w.slots, m);
        GuardIsCounted(JobStep(w.slots, m).jobs, j);
        if Enabled(w.slots, m) && m.SpawnJob? {
          OwnSurvives(w.host, JobBegins, os, pid);
        } else if Enabled(w.slots, m) && m.ReleaseGuard? {
          OwnSurvives(w.host, JobGuardDropped, os, pid);
        }
    }
  }

  /** From the start of a job's body to its end, its ready server is neither
      killed nor restarted, whatever the setting, the screens and the jobs
      before and after it do: only stopping the app, or its own exit, ends it. */
  lemma ImportIsProtected(turns: seq<Turn>, more: seq<Turn>, j: nat, pid: nat)
    requires ReadyWith(World(turns).host, pid)
    requires j < |World(turns).slots.jobs| && World(turns).slots.jobs[j].at.InBody?
    requires j < |Run(World(turns), more).slots.jobs| && Run(World(turns), more).slots.jobs[j].at.InBody?
    requires forall turn <- more :: !IsStop(turn) && !(turn.ServerTurn? && turn.move == Exits(pid))
    ensures ReadyWith(Run(World(turns), more).host, pid)
    ensures Run(World(turns), more).host.inner.state.phase == World(turns).host.inner.state.phase
  {
    hide WorldInv;
    WorldKeepsInv(turns);
    RunProtects(World(turns), more, j, pid);
  }

  lemma {:induction false} RunProtects(w: World, turns: seq<Turn>, j: nat, pid: nat)
    requires WorldInv(w) && ReadyWith(w.host, pid)
    requires j < |w.slots.jobs| && w.slots.jobs[j].at.InBody?
    requires j < |Run(w, turns).slots.jobs| && Run(w, turns).slots.jobs[j].at.InBody?
    requires forall turn <- turns :: !IsStop(turn) && !(turn.ServerTurn? && turn.move == Exits(pid))
    ensures ReadyWith(Run(w, turns).host, pid)
    ensures Run(w, turns).host.inner.state.phase == w.host.inner.state.phase
    decreases |turns|
  {
    hide WorldInv, MoveOnce, ReadyWith;
    if turns != [] {
      assert turns[0] in turns;
      var next := Turned(w, turns[0]);
      if !next.slots.jobs[j].at.InBody? {
        BodyEndsForGood(next, turns[1..], j);
      }
      TurnProtects(w, turns[0], j, pid);
      TurnKeepsInv(w, turns[0]);
      RunProtects(next, turns[1..], j, pid);
    }
  }
}
