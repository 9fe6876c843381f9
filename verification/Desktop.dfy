/** The whole desktop: the local server, its processes and threads, and the job
    slot, under every interleaving of their steps. */
module Desktop {
  import opened Text
  import opened Supervisor
  import opened Output
  import opened Host
  import opened Ownership
  import opened HostRuns
  import opened Jobs

  /** The two halves with two histories: how many stops were handled, and the
      generation of each exit that was reported. */
  datatype World = World(host: Host, slots: Slots, stops: nat, reports: seq<nat>)

  const INITIAL_WORLD := World(INITIAL_HOST, NO_JOBS, 0, [])

  /** A step of the local server or of the jobs, with what the operating system
      answers should it start a server. */
  datatype Turn = ServerTurn(move: Move, os: Os) | JobTurn(job: JobMove, os: Os)

  /** Whether `Report` finds its generation current and so reports the exit. */
  predicate ReportsExit(h: Host, m: Move) {
    && m.Report?
    && m.watcher < |h.watchers|
    && h.watchers[m.watcher].at.Reaping?
    && ReadersDone(h, h.watchers[m.watcher].at.readers)
    && h.watchers[m.watcher].generation == h.inner.generation
  }

  /** The local server's part of a job's step: `spawn_job` records the job and
      dropping the guard ends it. */
  function HostAfterJob(w: World, m: JobMove, os: Os): Host {
    if Enabled(w.slots, m) && m.SpawnJob? then MoveOnce(w.host, JobBegins, os)
    else if Enabled(w.slots, m) && m.ReleaseGuard? then MoveOnce(w.host, JobGuardDropped, os)
    else w.host
  }

  function Turned(w: World, turn: Turn): World {
    match turn
    case ServerTurn(m, os) =>
      if m.JobBegins? || m.JobGuardDropped? then w
      else
        w.(host := MoveOnce(w.host, m, os),
           stops := if m.Stop? then w.stops + 1 else w.stops,
           reports := if ReportsExit(w.host, m) then w.reports + [w.host.inner.generation] else w.reports)
    case JobTurn(m, os) => w.(host := HostAfterJob(w, m, os), slots := JobStep(w.slots, m))
  }

  function Run(w: World, turns: seq<Turn>): World
    decreases |turns|
  {
    if turns == [] then w else Run(Turned(w, turns[0]), turns[1..])
  }

  // ----- The invariant -------------------------------------------------------

  /** Each generation reported its exit at most once, and not while its server
      may still be the app's. */
  predicate ReportsInv(w: World) {
    var h, r := w.host, w.reports;
    && |h.watchers| == |h.procs|
    && (forall i | 0 <= i < |r| :: r[i] <= h.inner.generation)
    && (forall i, j | 0 <= i < j < |r| :: r[i] < r[j])
    && (r != [] && r[|r| - 1] == h.inner.generation ==>
          Current(h) && h.watchers[|h.procs| - 1].at.Gone?)
  }

  predicate WorldInv(w: World) {
    && HostInv(w.host)
    && Outputs(w.host)
    && ProbesInv(w.host, w.stops)
    && ReportsInv(w)
    && SlotsInv(w.slots)
    && w.host.inner.state.jobs == Guards(w.slots.jobs)
  }

  lemma InitialInv()
    ensures WorldInv(INITIAL_WORLD)
  {
  }

  lemma ReportsStay(w: World, m: Move, os: Os)
    requires HostInv(w.host) && ReportsInv(w) && HostInv(MoveOnce(w.host, m, os))
    ensures ReportsInv(Turned(w, ServerTurn(m, os)))
  {
    hide Apply, MoveOnce, Converged;
    var h, t := w.host, MoveOnce(w.host, m, os);
    MoveGrows(h, m, os);
    if ReportsExit(h, m) {
      ReportEnds(h, m.watcher, os);
    } else if w.reports != [] && w.reports[|w.reports| - 1] == t.inner.generation {
      var last := |h.procs| - 1;
      assert |t.procs| == |h.procs| by {
        NoneStarted(h, t);
      }
      if WorkOf(m, last) {
        GoneStaysGone(h, m, os, last);
      }
    }
  }

  lemma NoneStarted(h: Host, t: Host)
    requires Grows(h, t) && Threads(t)
    ensures |t.procs| > |h.procs| ==> t.inner.generation > h.inner.generation
  {
    if |t.procs| > |h.procs| {
      var started := t.procs[|h.procs|];
      assert started.generation > h.inner.generation;
    }
  }

  lemma GoneStaysGone(h: Host, m: Move, os: Os, i: nat)
    requires i < |h.watchers| && h.watchers[i].at.Gone? && WorkOf(m, i)
    ensures MoveOnce(h, m, os) == h
  {
    hide PollOnce, ReportExit;
  }

  lemma ReportEnds(h: Host, i: nat, os: Os)
    requires HostInv(h) && ReportsExit(h, Report(i))
    ensures var t := MoveOnce(h, Report(i), os);
            && t.inner.generation == h.inner.generation && |t.procs| == |h.procs|
            && i == |h.procs| - 1 && t.watchers[i].at.Gone? && Current(t)
  {
    hide Step, Apply;
    var h1 := WithWatcher(h, i, Gone);
    var e := ChildExited(OutputAt(h, h.watchers[i].at.output));
    StepFacts(h1.inner.state, e);
    ApplyLooksOnly(h1, e, os);
  }

  lemma ServerTurnKeepsInv(w: World, m: Move, os: Os)
    requires WorldInv(w)
    ensures WorldInv(Turned(w, ServerTurn(m, os)))
  {
    hide HostInv, Outputs, ProbesInv, ReportsInv, SlotsInv, MoveOnce;
    if !(m.JobBegins? || m.JobGuardDropped?) {
      MoveKeepsInv(w.host, m, os);
      MoveKeepsOutputs(w.host, m, os);
      MoveKeepsProbes(w.host, m, os, w.stops);
      ReportsStay(w, m, os);
      MoveJobs(w.host, m, os);
    }
  }

  lemma JobTurnKeepsInv(w: World, m: JobMove, os: Os)
    requires WorldInv(w)
    ensures WorldInv(Turned(w, JobTurn(m, os)))
  {
    hide HostInv, Outputs, ProbesInv, ReportsInv, MoveOnce, JobStep, SlotIsHeld, FlagsAreOwn, EventsAreExact;
    SlotStaysHeld(w.slots, m);
    FlagsStayOwn(w.slots, m);
    EventsStayExact(w.slots, m);
    GuardsAfterMove(w.slots, m);
    if Enabled(w.slots, m) && m.SpawnJob? {
      GuardMoveKeepsInv(w, JobBegins, os);
    } else if Enabled(w.slots, m) && m.ReleaseGuard? {
      GuardMoveKeepsInv(w, JobGuardDropped, os);
    }
    assert ReportsInv(Turned(w, JobTurn(m, os))) by {
      ReportsIgnoreSlots(w.(host := HostAfterJob(w, m, os)), JobStep(w.slots, m));
    }
  }

  lemma ReportsIgnoreSlots(w: World, slots: Slots)
    ensures ReportsInv(w) ==> ReportsInv(w.(slots := slots))
  {
  }

  lemma GuardMoveKeepsInv(w: World, m: Move, os: Os)
    requires WorldInv(w) && (m.JobBegins? || m.JobGuardDropped?)
    requires m.JobGuardDropped? ==> w.host.inner.state.jobs >= 1
    ensures var t := MoveOnce(w.host, m, os);
            && HostInv(t) && Outputs(t) && ProbesInv(t, w.stops) && ReportsInv(w.(host := t))
            && t.inner.state.jobs == w.host.inner.state.jobs + (if m.JobBegins? then 1 else -1)
  {
    hide HostInv, Outputs, ProbesInv, SlotsInv, Apply;
    MoveKeepsInv(w.host, m, os);
    MoveKeepsOutputs(w.host, m, os);
    MoveKeepsProbes(w.host, m, os, w.stops);
    ApplyJobs(w.host, if m.JobBegins? then JobStarted else JobEnded, os);
    GuardMoveReports(w, m, os);
  }

  lemma GuardMoveReports(w: World, m: Move, os: Os)
    requires HostInv(w.host) && ReportsInv(w) && (m.JobBegins? || m.JobGuardDropped?)
    requires HostInv(MoveOnce(w.host, m, os))
    ensures ReportsInv(w.(host := MoveOnce(w.host, m, os)))
  {
    hide MoveOnce, Converged;
    var h, t := w.host, MoveOnce(w.host, m, os);
    MoveGrows(h, m, os);
    if t.inner.generation == h.inner.generation {
      NoneStarted(h, t);
    }
  }

  lemma TurnKeepsInv(w: World, turn: Turn)
    requires WorldInv(w)
    ensures WorldInv(Turned(w, turn))
  {
    hide WorldInv, Turned;
    match turn {
      case ServerTurn(m, os) => ServerTurnKeepsInv(w, m, os);
      case JobTurn(m, os) => JobTurnKeepsInv(w, m, os);
    }
  }

  lemma {:induction false} RunKeepsInv(w: World, turns: seq<Turn>)
    requires WorldInv(w)
    ensures WorldInv(Run(w, turns))
    decreases |turns|
  {
    hide WorldInv, Turned;
    if turns != [] {
      TurnKeepsInv(w, turns[0]);
      RunKeepsInv(Turned(w, turns[0]), turns[1..]);
    }
  }
}
