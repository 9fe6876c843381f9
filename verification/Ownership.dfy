/** What every interleaving of UI calls, probe answers, watchers, readers and
    the server process itself keeps about `Host`. */
module Ownership {
  import opened Text
  import opened Supervisor
  import opened Output
  import opened Host

  /** One watcher for each process, under its generation; generations grow. */
  predicate Threads(h: Host) {
    && |h.watchers| == |h.procs|
    && (forall i | 0 <= i < |h.procs| ::
          h.watchers[i].generation == h.procs[i].generation <= h.inner.generation)
    && (forall i, j | 0 <= i < j < |h.procs| :: h.procs[i].generation < h.procs[j].generation)
  }

  predicate Outputs(h: Host) {
    forall p <- h.procs :: PipesInv(p.pipes)
  }

  predicate Reaps(h: Host) {
    forall i | 0 <= i < |h.procs| && i < |h.watchers| && h.watchers[i].at.Reaping? ::
      !h.procs[i].running && h.watchers[i].at == Reaping(Some(i), Some(i))
  }

  /** A process of the app's that runs is the one in `child`. */
  predicate Sole(h: Host) {
    forall i | 0 <= i < |h.procs| && h.procs[i].running :: h.inner.child == Some(i)
  }

  /** The newest process is of the current generation: neither killed nor
      replaced. */
  predicate Current(h: Host) {
    |h.procs| > 0 && h.procs[|h.procs| - 1].generation == h.inner.generation
  }

  function Newest(h: Host): Process
    requires |h.procs| > 0
  {
    h.procs[|h.procs| - 1]
  }

  predicate ChildInv(h: Host)
    requires |h.watchers| == |h.procs|
  {
    h.inner.child.Some? ==>
      && Current(h)
      && h.inner.child == h.inner.readers == Some(|h.procs| - 1)
      && h.watchers[|h.procs| - 1].at.Polling?
      && Held(h.inner.state.phase)
  }

  predicate HeldInv(h: Host)
    requires |h.watchers| == |h.procs|
  {
    Held(h.inner.state.phase) ==>
      && Current(h)
      && Newest(h).launch.openToNetwork == h.inner.state.phase.open
      && h.inner.output == h.inner.listened == Some(|h.procs| - 1)
      && (h.inner.child.None? ==> h.watchers[|h.procs| - 1].at.Reaping?)
      && (h.inner.state.phase.Own? ==> Newest(h).pipes.listened)
  }

  predicate PollInv(h: Host)
    requires |h.watchers| == |h.procs|
  {
    Current(h) && h.watchers[|h.procs| - 1].at.Polling? ==> h.inner.child.Some?
  }

  /** While its watcher joins the readers, the phase still says the newest server
      is there, unless that was killed. */
  predicate ReapInv(h: Host)
    requires |h.watchers| == |h.procs|
  {
    Current(h) && h.watchers[|h.procs| - 1].at.Reaping? ==> Held(h.inner.state.phase)
  }

  predicate HostInv(h: Host) {
    && Threads(h)
    && Reaps(h)
    && Sole(h)
    && ChildInv(h)
    && HeldInv(h)
    && PollInv(h)
    && ReapInv(h)
    && (h.inner.state.phase != Idle ==> h.inner.launch.Some?)
    && Converged(h.inner.state)
  }

  /** What is left of the invariant once nothing of the app's runs. */
  predicate Vacant(h: Host) {
    && Threads(h)
    && Reaps(h)
    && h.inner.child.None?
    && (forall p <- h.procs :: !p.running)
    && (Current(h) ==> h.watchers[|h.procs| - 1].at.Gone?)
  }

  // ----- One action at a time -----------------------------------------------

  lemma VacantUnlessHeld(h: Host)
    requires HostInv(h) && !Held(h.inner.state.phase)
    ensures Vacant(h)
  {
  }

  lemma KillVacates(h: Host)
    requires Threads(h) && Reaps(h) && Sole(h)
    ensures Vacant(KillChild(h)) && !Current(KillChild(h))
  {
  }

  /** Starting a server where none runs makes it the one the app holds. */
  lemma SpawnFillsTheVacancy(h: Host, open: bool, os: Os)
    requires Vacant(h) && h.inner.state.phase == Starting(open) && Converged(h.inner.state)
    requires h.inner.launch.Some?
    ensures var (t, error) := SpawnServer(h, open, os);
            && (os.starts ==> error.None? && HostInv(t) && t.inner.child == Some(|h.procs|))
            && (!os.starts ==>
                  error.Some? && Vacant(t) && t == h.(inner := h.inner.(firstTime := os.firstStart)))
  {
    if os.starts {
      var t := SpawnServer(h, open, os).0;
      assert t.procs[..|h.procs|] == h.procs && t.watchers[..|h.procs|] == h.watchers;
      NewestStarts(h, t);
    }
  }

  lemma NewestStarts(h: Host, t: Host)
    requires Vacant(h) && |t.procs| == |t.watchers| == |h.procs| + 1
    requires t.procs[..|h.procs|] == h.procs && t.watchers[..|h.procs|] == h.watchers
    requires Newest(t).generation == t.watchers[|h.procs|].generation == t.inner.generation == h.inner.generation + 1
    requires t.inner.child == Some(|h.procs|) && t.watchers[|h.procs|].at.Polling?
    ensures Threads(t) && Reaps(t) && Sole(t)
  {
    assert forall i | 0 <= i < |h.procs| :: t.procs[i] == h.procs[i] && t.watchers[i] == h.watchers[i];
  }

  // ----- One event at a time --------------------------------------------------

  lemma DoOne(h: Host, a: Action, os: Os)
    ensures PerformAll(h, [a], os).0 == Perform(h, a, os).0
    ensures PerformAll(h, [a], os).1 ==
            match Perform(h, a, os).1 case None => [] case Some(error) => [SpawnFailed(error)]
  {
    assert [a][1..] == [];
  }

  lemma DoTwo(h: Host, a: Action, b: Action, os: Os)
    requires Perform(h, a, os).1.None?
    ensures PerformAll(h, [a, b], os) == PerformAll(Perform(h, a, os).0, [b], os)
  {
    assert [a, b][1..] == [b];
    var rest := PerformAll(Perform(h, a, os).0, [b], os);
    assert [] + rest.1 == rest.1;
  }

  /** What a step does to the phase, by what it asks for. */
  lemma StepFacts(s: State, e: Event)
    ensures EndsTheServer(s, e) ==> LooksOnly(Step(s, e).1)
    ensures var (t, actions) := Step(s, e);
            && (Converged(s) ==> Converged(t))
            && (t.phase != Idle ==> s.phase != Idle || e.Requested?)
            && ( || (LooksOnly(actions) && !EndsTheServer(s, e) && SameServer(s, e, t))
                 || (LooksOnly(actions) && EndsTheServer(s, e) && !Held(t.phase))
                 || (actions == [Kill] && !Held(t.phase))
                 || (Starts(actions, t.wantedOpen) && t.phase == Starting(t.wantedOpen)
                     && s.phase != Idle && (|actions| == 1 ==> !Held(s.phase))))
  {
  }

  /** The event says the app's own server is not there. */
  predicate EndsTheServer(s: State, e: Event) {
    e.ChildExited? || (e.SpawnFailed? && s.phase.Starting?)
  }

  predicate LooksOnly(actions: seq<Action>) {
    actions == [] || actions == [Probe] || actions == [ProbeLater]
  }

  /** A start, in place of a killed server or of nothing. */
  predicate Starts(actions: seq<Action>, open: bool) {
    actions == [Spawn(open)] || actions == [Kill, Spawn(open)]
  }

  /** The app's own server is there after the event just when it was before. */
  predicate SameServer(s: State, e: Event, t: State) {
    && (Held(t.phase) <==> Held(s.phase))
    && (Held(s.phase) ==> t.phase.open == s.phase.open)
    && (t.phase.Own? ==> s.phase.Own? || e.Listening?)
  }

  lemma ApplyLooksOnly(h: Host, e: Event, os: Os)
    requires LooksOnly(Step(h.inner.state, e).1)
    ensures var (s, actions) := Step(h.inner.state, e);
            Apply(h, e, os) == if actions == [] then WithState(h, s) else StartProbe(WithState(h, s))
  {
    hide Step;
    var (s, actions) := Step(h.inner.state, e);
    if actions != [] {
      DoOne(WithState(h, s), actions[0], os);
    }
  }

  lemma ApplyKills(h: Host, e: Event, os: Os)
    requires Step(h.inner.state, e).1 == [Kill]
    ensures Apply(h, e, os) == KillChild(WithState(h, Step(h.inner.state, e).0))
  {
    hide Step;
    DoOne(WithState(h, Step(h.inner.state, e).0), Kill, os);
  }

  /** The host just before a start: a restart kills first. */
  function BeforeStart(h: Host, e: Event): Host {
    var (s, actions) := Step(h.inner.state, e);
    if |actions| == 1 then WithState(h, s) else KillChild(WithState(h, s))
  }

  /** A start, alone or after a kill: a failed one is reported back at once. */
  lemma ApplySpawns(h: Host, e: Event, open: bool, os: Os)
    requires Starts(Step(h.inner.state, e).1, open)
    ensures var (t, error) := SpawnServer(BeforeStart(h, e), open, os);
            Apply(h, e, os) ==
            if error.None? then t else WithState(t, Step(t.inner.state, SpawnFailed(error.value)).0)
  {
    hide Step;
    var (s, actions) := Step(h.inner.state, e);
    if |actions| == 2 {
      DoTwo(WithState(h, s), Kill, Spawn(open), os);
    }
    DoOne(BeforeStart(h, e), Spawn(open), os);
  }

  lemma StateKeepsInv(h: Host, e: Event, t: State)
    requires HostInv(h) && SameServer(h.inner.state, e, t) && Converged(t)
    requires e.Listening? && h.inner.state.phase.Starting? ==> Newest(h).pipes.listened
    requires t.phase != Idle ==> h.inner.launch.Some?
    ensures HostInv(WithState(h, t)) && HostInv(StartProbe(WithState(h, t)))
  {
    hide Converged;
    StateAlone(h, e, t);
    ProbeKeepsInv(WithState(h, t));
  }

  lemma StateAlone(h: Host, e: Event, t: State)
    requires HostInv(h) && SameServer(h.inner.state, e, t) && Converged(t)
    requires e.Listening? && h.inner.state.phase.Starting? ==> Newest(h).pipes.listened
    requires t.phase != Idle ==> h.inner.launch.Some?
    ensures HostInv(WithState(h, t))
  {
    hide Converged;
  }

  lemma ProbeKeepsInv(h: Host)
    requires HostInv(h)
    ensures HostInv(StartProbe(h))
  {
    hide Converged;
  }

  /** The host with no server of the app's left, whatever phase that is. */
  lemma VacantStateInv(h: Host, t: State)
    requires Vacant(h) && !Held(t.phase) && Converged(t)
    requires t.phase != Idle ==> h.inner.launch.Some?
    ensures HostInv(WithState(h, t)) && HostInv(StartProbe(WithState(h, t)))
  {
    hide Converged;
    assert HostInv(WithState(h, t));
    ProbeKeepsInv(WithState(h, t));
  }

  /** Whatever a start replaces is gone by the time it begins. */
  lemma VacantBeforeStart(h: Host, e: Event, open: bool)
    requires HostInv(h) && (e.Requested? ==> h.inner.launch.Some?)
    requires Starts(Step(h.inner.state, e).1, open)
    ensures var b := BeforeStart(h, e);
            && Vacant(b)
            && b.inner.state == Step(h.inner.state, e).0
            && b.inner.state.phase == Starting(open)
            && b.inner.launch.Some?
  {
    hide Step;
    StepFacts(h.inner.state, e);
    var s := Step(h.inner.state, e).0;
    if |Step(h.inner.state, e).1| == 1 {
      VacantUnlessHeld(h);
    } else {
      KillVacates(WithState(h, s));
    }
  }

  lemma SpawnsKeep(h: Host, e: Event, open: bool, os: Os)
    requires HostInv(h) && (e.Requested? ==> h.inner.launch.Some?)
    requires Starts(Step(h.inner.state, e).1, open)
    ensures HostInv(Apply(h, e, os))
  {
    hide Step, Apply, HeldInv, ChildInv, PollInv, ReapInv, Reaps, Threads, Sole;
    StepFacts(h.inner.state, e);
    VacantBeforeStart(h, e, open);
    ApplySpawns(h, e, open, os);
    var b := BeforeStart(h, e);
    SpawnFillsTheVacancy(b, open, os);
    var (t, error) := SpawnServer(b, open, os);
    if error.Some? {
      StepFacts(t.inner.state, SpawnFailed(error.value));
      VacantStateInv(t, Step(t.inner.state, SpawnFailed(error.value)).0);
    }
  }

  lemma ApplyKeepsInv(h: Host, e: Event, os: Os)
    requires HostInv(h) && !e.ChildExited? && !e.SpawnFailed?
    requires e.Listening? && h.inner.state.phase.Starting? ==> Newest(h).pipes.listened
    requires e.Requested? ==> h.inner.launch.Some?
    ensures HostInv(Apply(h, e, os))
  {
    hide Step, Apply, HeldInv, ChildInv, PollInv, ReapInv, Reaps, Threads, Sole;
    var (s, actions) := Step(h.inner.state, e);
    StepFacts(h.inner.state, e);
    if actions == [Kill] {
      ApplyKills(h, e, os);
      KillApart(h, s);
      VacantStateInv(KillChild(h), s);
    } else if LooksOnly(actions) {
      ApplyLooksOnly(h, e, os);
      StateKeepsInv(h, e, s);
    } else {
      SpawnsKeep(h, e, s.wantedOpen, os);
    }
  }

  lemma KillApart(h: Host, s: State)
    requires HostInv(h)
    ensures KillChild(WithState(h, s)) == WithState(KillChild(h), s)
    ensures Vacant(KillChild(h)) && KillChild(h).inner.launch == h.inner.launch
  {
    KillVacates(h);
  }

  // ----- One move at a time ----------------------------------------------------

  lemma PollKeepsInv(h: Host, i: nat, heard: bool, late: bool, os: Os)
    requires HostInv(h) && i < |h.watchers| && h.watchers[i].at.Polling?
    ensures HostInv(PollOnce(h, i, heard, late, os))
  {
    hide Apply, Step;
    if h.watchers[i].generation == h.inner.generation {
      assert i == |h.procs| - 1;
      if !ChildExitedBy(h) {
        if heard && HasListened(h) {
          ApplyKeepsInv(h, Listening, os);
        }
        var h1 := if heard && HasListened(h) then Apply(h, Listening, os) else h;
        if late && h1.inner.state.phase.Starting? {
          ApplyKeepsInv(h1, Deadline(OutputAt(h1, h1.inner.output)), os);
        }
      }
    }
  }

  lemma ReportKeepsInv(h: Host, i: nat, os: Os)
    requires HostInv(h) && i < |h.watchers| && h.watchers[i].at.Reaping?
    ensures HostInv(ReportExit(h, i, os))
  {
    hide Apply, Step;
    var h1 := WithWatcher(h, i, Gone);
    if h.watchers[i].generation == h.inner.generation {
      assert i == |h.procs| - 1 && h.inner.child.None? && Vacant(h1);
      var e := ChildExited(OutputAt(h, h.watchers[i].at.output));
      StepFacts(h1.inner.state, e);
      ApplyLooksOnly(h1, e, os);
      VacantStateInv(h1, Step(h1.inner.state, e).0);
    }
  }

  /** Every move, in any state the invariant allows, keeps it. */
  lemma MoveKeepsInv(h: Host, m: Move, os: Os)
    requires HostInv(h)
    ensures HostInv(MoveOnce(h, m, os))
  {
    hide Apply, Step, PollOnce, ReportExit;
    match m {
      case EnsureStarted(launch, first) => EnsureKeepsInv(h, launch, first, os);
      case SetOpen(open) => ApplyKeepsInv(h, Configured(open), os);
      case AskStatus => ApplyKeepsInv(h, Check, os);
      case JobBegins => ApplyKeepsInv(h, JobStarted, os);
      case JobGuardDropped => ApplyKeepsInv(h, JobEnded, os);
      case Stop => ApplyKeepsInv(h, Stopped, os);
      case ProbeAnswers(answer) =>
        if h.probes > 0 {
          ApplyKeepsInv(h.(probes := h.probes - 1), Probed(answer), os);
        }
      case Poll(i, heard, late) =>
        if i < |h.watchers| && h.watchers[i].at.Polling? {
          PollKeepsInv(h, i, heard, late, os);
        }
      case Report(i) =>
        if i < |h.watchers| && h.watchers[i].at.Reaping? {
          ReportKeepsInv(h, i, os);
        }
      case _ => ProcessMoveKeepsInv(h, m, os);
    }
  }

  lemma EnsureKeepsInv(h: Host, launch: Launch, first: bool, os: Os)
    requires HostInv(h)
    ensures HostInv(Ensure(h, launch, first, os))
  {
    hide Apply, Step;
    var phase := h.inner.state.phase;
    var firstTime := if Settled(phase) || phase.Found? then first else h.inner.firstTime;
    var h1 := h.(inner := h.inner.(firstTime := firstTime, launch := Some(launch)));
    ApplyKeepsInv(h1, Requested(launch.openToNetwork), os);
  }

  /** The flag of a server's output is never taken back. */
  lemma PipesKeepInv(h: Host, pid: nat, pipes: Pipes)
    requires HostInv(h) && pid < |h.procs| && (h.procs[pid].pipes.listened ==> pipes.listened)
    ensures HostInv(WithPipes(h, pid, pipes))
  {
  }

  lemma ExitKeepsInv(h: Host, pid: nat)
    requires HostInv(h) && pid < |h.procs|
    ensures HostInv(h.(procs := h.procs[pid := AfterExit(h.procs[pid])]))
  {
  }

  lemma ProcessMoveKeepsInv(h: Host, m: Move, os: Os)
    requires HostInv(h) && (m.Writes? || m.Exits? || m.Takes? || m.Keeps?)
    ensures HostInv(MoveOnce(h, m, os))
  {
    hide HostInv, StartsWith, Push;
    match m {
      case Writes(pid, s, item) =>
        if pid < |h.procs| {
          PipesKeepInv(h, pid, Write(h.procs[pid].pipes, s, item));
        }
      case Exits(pid) =>
        if pid < |h.procs| {
          ExitKeepsInv(h, pid);
        }
      case Takes(pid, s) =>
        if pid < |h.procs| {
          PipesKeepInv(h, pid, Take(h.procs[pid].pipes, s));
        }
      case Keeps(pid, s) =>
        if pid < |h.procs| {
          PipesKeepInv(h, pid, Keep(h.procs[pid].pipes, s));
        }
    }
  }
}
