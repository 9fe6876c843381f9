/** The desktop job slot of `src-tauri/src/commands/jobs.rs`: one job at a
    time, a cancel flag of its own for each, released by drop. */
module Jobs {
  import opened Text

  /** How a job's body ends. */
  datatype Outcome = Returned(ok: bool) | Panicked

  /** Where a job is: started and not yet on its thread; in its body; the body
      over; the slot released; the server-side guard dropped; its outcome
      reported. A command that fails before `spawn_job` only drops its job. */
  datatype At =
    | Holding
    | InBody
    | BodyOver(outcome: Outcome)
    | SlotFreed(outcome: Outcome)
    | GuardDropped(outcome: Outcome)
    | Reported(outcome: Outcome)
    | Abandoned

  /** A job and its own cancel flag. */
  datatype JobRun = JobRun(at: At, cancelled: bool)

  datatype OutcomeEvent = FinishedEvent | ErrorEvent

  /** Every job started, the one in the slot, and two histories: which job held
      the slot when each cancel was handled, and each outcome event sent. */
  datatype Slots = Slots(jobs: seq<JobRun>, slot: Option<nat>, cancels: seq<Option<nat>>,
                         emitted: seq<(nat, OutcomeEvent)>)

  const NO_JOBS := Slots([], None, [], [])

  datatype JobMove =
    | StartJob
    | CancelRunning
    | DropJob(job: nat)
    | SpawnJob(job: nat)
    | BodyEnds(job: nat, outcome: Outcome)
    | ReleaseSlot(job: nat)
    | ReleaseGuard(job: nat)
    | Emit(job: nat)

  predicate HoldsSlot(at: At) {
    at.Holding? || at.InBody? || at.BodyOver?
  }

  /** The server-side guard lives from `spawn_job` until after the slot is free. */
  predicate HasGuard(at: At) {
    at.InBody? || at.BodyOver? || at.SlotFreed?
  }

  function EventFor(outcome: Outcome): OutcomeEvent {
    if outcome == Returned(true) then FinishedEvent else ErrorEvent
  }

  function MoveTo(s: Slots, j: nat, at: At): Slots
    requires j < |s.jobs|
  {
    s.(jobs := s.jobs[j := s.jobs[j].(at := at)])
  }

  /** `Job::drop`: only the job's own entry is cleared. */
  function ClearOwn(s: Slots, j: nat): Slots {
    if s.slot == Some(j) then s.(slot := None) else s
  }

  /** Whether `m` can happen now. */
  predicate Enabled(s: Slots, m: JobMove) {
    match m
    case StartJob => s.slot.None?
    case CancelRunning => true
    case DropJob(j) => j < |s.jobs| && s.jobs[j].at.Holding?
    case SpawnJob(j) => j < |s.jobs| && s.jobs[j].at.Holding?
    case BodyEnds(j, _) => j < |s.jobs| && s.jobs[j].at.InBody?
    case ReleaseSlot(j) => j < |s.jobs| && s.jobs[j].at.BodyOver?
    case ReleaseGuard(j) => j < |s.jobs| && s.jobs[j].at.SlotFreed?
    case Emit(j) => j < |s.jobs| && s.jobs[j].at.GuardDropped?
  }

  function JobStep(s: Slots, m: JobMove): Slots {
    if !Enabled(s, m) then s
    else
      match m
      case StartJob => s.(jobs := s.jobs + [JobRun(Holding, false)], slot := Some(|s.jobs|))
      case CancelRunning =>
        var t := s.(cancels := s.cancels + [s.slot]);
        if s.slot.Some? && s.slot.value < |s.jobs|
        then t.(jobs := t.jobs[s.slot.value := t.jobs[s.slot.value].(cancelled := true)]) else t
      case DropJob(j) => ClearOwn(MoveTo(s, j, Abandoned), j)
      case SpawnJob(j) => MoveTo(s, j, InBody)
      case BodyEnds(j, outcome) => MoveTo(s, j, BodyOver(outcome))
      case ReleaseSlot(j) => ClearOwn(MoveTo(s, j, SlotFreed(s.jobs[j].at.outcome)), j)
      case ReleaseGuard(j) => MoveTo(s, j, GuardDropped(s.jobs[j].at.outcome))
      case Emit(j) =>
        var outcome := s.jobs[j].at.outcome;
        MoveTo(s, j, Reported(outcome)).(emitted := s.emitted + [(j, EventFor(outcome))])
  }

  // ----- What every interleaving keeps ----------------------------------------

  /** At most one job holds the slot, and the slot names exactly that one. */
  predicate SlotIsHeld(s: Slots) {
    && (s.slot.Some? ==> s.slot.value < |s.jobs| && HoldsSlot(s.jobs[s.slot.value].at))
    && (forall j | 0 <= j < |s.jobs| && HoldsSlot(s.jobs[j].at) :: s.slot == Some(j))
  }

  /** A flag is set exactly when a cancel was handled while its job held the slot. */
  predicate FlagsAreOwn(s: Slots) {
    && (forall held <- s.cancels :: held.Some? ==> held.value < |s.jobs|)
    && (forall j: nat | j < |s.jobs| :: s.jobs[j].cancelled <==> Some(j) in s.cancels)
  }

  /** Each reported job sent one event, the one its outcome calls for. */
  predicate EventsAreExact(s: Slots) {
    && (forall k | 0 <= k < |s.emitted| ::
          s.emitted[k].0 < |s.jobs| && s.jobs[s.emitted[k].0].at.Reported?
          && s.emitted[k].1 == EventFor(s.jobs[s.emitted[k].0].at.outcome))
    && (forall k, l | 0 <= k < l < |s.emitted| :: s.emitted[k].0 != s.emitted[l].0)
    && (forall j | 0 <= j < |s.jobs| && s.jobs[j].at.Reported? ::
          (j, EventFor(s.jobs[j].at.outcome)) in s.emitted)
  }

  predicate SlotsInv(s: Slots) {
    SlotIsHeld(s) && FlagsAreOwn(s) && EventsAreExact(s)
  }

  lemma SlotStaysHeld(s: Slots, m: JobMove)
    requires SlotIsHeld(s)
    ensures SlotIsHeld(JobStep(s, m))
  {
  }

  lemma FlagsStayOwn(s: Slots, m: JobMove)
    requires SlotIsHeld(s) && FlagsAreOwn(s)
    ensures FlagsAreOwn(JobStep(s, m))
  {
    if m.CancelRunning? {
      var t := JobStep(s, m);
      assert forall x :: x in t.cancels <==> x in s.cancels || x == s.slot;
    }
  }

  lemma EventsStayExact(s: Slots, m: JobMove)
    requires EventsAreExact(s)
    ensures EventsAreExact(JobStep(s, m))
  {
    var t := JobStep(s, m);
    if m.Emit? && Enabled(s, m) {
      OneMoreEvent(s, m.job);
    } else {
      SameReportsSameEvents(s, t);
    }
  }

  lemma OneMoreEvent(s: Slots, j: nat)
    requires EventsAreExact(s) && j < |s.jobs| && s.jobs[j].at.GuardDropped?
    ensures EventsAreExact(JobStep(s, Emit(j)))
  {
    var t := JobStep(s, Emit(j));
    var sent := (j, EventFor(s.jobs[j].at.outcome));
    assert t.emitted[|s.emitted|] == sent;
    assert forall x :: x in s.emitted ==> x in t.emitted;
  }

  lemma SameReportsSameEvents(s: Slots, t: Slots)
    requires EventsAreExact(s) && t.emitted == s.emitted && |s.jobs| <= |t.jobs|
    requires forall j | 0 <= j < |t.jobs| ::
               if j < |s.jobs| && s.jobs[j].at.Reported? then t.jobs[j].at == s.jobs[j].at
               else !t.jobs[j].at.Reported?
    ensures EventsAreExact(t)
  {
  }

  /** A job has sent the finished event exactly when its body returned well and
      that was reported, and the error event exactly when any other end was, a
      panic among them. */
  lemma EventsSayHowBodiesEnded(s: Slots, j: nat)
    requires EventsAreExact(s)
    ensures (j, FinishedEvent) in s.emitted <==> j < |s.jobs| && s.jobs[j].at == Reported(Returned(true))
    ensures (j, ErrorEvent) in s.emitted <==>
            j < |s.jobs| && (s.jobs[j].at == Reported(Returned(false)) || s.jobs[j].at == Reported(Panicked))
  {
    if (j, FinishedEvent) in s.emitted {
      var k :| 0 <= k < |s.emitted| && s.emitted[k] == (j, FinishedEvent);
    }
    if (j, ErrorEvent) in s.emitted {
      var k :| 0 <= k < |s.emitted| && s.emitted[k] == (j, ErrorEvent);
    }
  }

  /** From its body to its event a job waits for nobody: four steps of its own
      free the slot, drop the guard and report the body's outcome. */
  lemma JobsRunThrough(s: Slots, j: nat, outcome: Outcome)
    requires SlotIsHeld(s) && j < |s.jobs| && s.jobs[j].at.InBody?
    ensures var ended := JobStep(s, BodyEnds(j, outcome));
            var freed := JobStep(ended, ReleaseSlot(j));
            var dropped := JobStep(freed, ReleaseGuard(j));
            var t := JobStep(dropped, Emit(j));
            && ended.slot == Some(j) && freed.slot.None? && HasGuard(freed.jobs[j].at) && !HasGuard(dropped.jobs[j].at)
            && t.jobs[j].at == Reported(outcome)
            && t.emitted == s.emitted + [(j, if outcome == Returned(true) then FinishedEvent else ErrorEvent)]
  {
  }

  /** The jobs whose server-side guard is alive. */
  function Guards(jobs: seq<JobRun>): nat {
    if jobs == [] then 0
    else Guards(jobs[..|jobs| - 1]) + (if HasGuard(jobs[|jobs| - 1].at) then 1 else 0)
  }

  lemma {:induction false} GuardsAfterUpdate(jobs: seq<JobRun>, j: nat, job: JobRun)
    requires j < |jobs|
    ensures Guards(jobs[j := job]) + (if HasGuard(jobs[j].at) then 1 else 0)
            == Guards(jobs) + (if HasGuard(job.at) then 1 else 0)
    decreases |jobs|
  {
    var last := |jobs| - 1;
    if j == last {
      assert jobs[j := job][..last] == jobs[..last];
    } else {
      assert jobs[j := job][..last] == jobs[..last][j := job];
      GuardsAfterUpdate(jobs[..last], j, job);
    }
  }

  lemma {:induction false} GuardIsCounted(jobs: seq<JobRun>, j: nat)
    requires j < |jobs| && HasGuard(jobs[j].at)
    ensures Guards(jobs) >= 1
    decreases |jobs|
  {
    if j < |jobs| - 1 {
      GuardIsCounted(jobs[..|jobs| - 1], j);
    }
  }

  /** How many guards a move adds or drops. */
  function GuardChange(s: Slots, m: JobMove): int {
    if Enabled(s, m) && m.SpawnJob? then 1
    else if Enabled(s, m) && m.ReleaseGuard? then -1
    else 0
  }

  lemma GuardsAfterMove(s: Slots, m: JobMove)
    requires SlotIsHeld(s)
    ensures Guards(JobStep(s, m).jobs) == Guards(s.jobs) + GuardChange(s, m)
    ensures m.ReleaseGuard? && Enabled(s, m) ==> Guards(s.jobs) >= 1
  {
    if Enabled(s, m) {
      if m.ReleaseGuard? {
        GuardIsCounted(s.jobs, m.job);
      }
      match m {
        case StartJob => assert JobStep(s, m).jobs[..|s.jobs|] == s.jobs;
        case CancelRunning =>
          if s.slot.Some? {
            GuardsAfterUpdate(s.jobs, s.slot.value, s.jobs[s.slot.value].(cancelled := true));
          }
        case _ =>
          GuardsAfterUpdate(s.jobs, m.job, JobStep(s, m).jobs[m.job]);
      }
    }
  }

  // ----- The program's own form ---------------------------------------------

  class CancelFlag {
    var raised: bool

    constructor ()
      ensures !raised
    {
      raised := false;
    }
  }

  /** The desktop's shared state: the running job's flag and name. */
  class AppState {
    var running: CancelFlag?
    var name: string

    constructor ()
      ensures running == null
    {
      running, name := null, "";
    }
  }

  /** The running job: a handle to the state and to its own flag. */
  class Job {
    const state: AppState
    const cancel: CancelFlag

    constructor (state: AppState, cancel: CancelFlag)
      ensures this.state == state && this.cancel == cancel
    {
      this.state, this.cancel := state, cancel;
    }

    /** `Drop`: ends this job and never one started after it. */
    method Drop()
      modifies state
      ensures state.running == if old(state.running) == cancel then null else old(state.running)
      ensures state.name == old(state.name)
    {
      if state.running == cancel {
        state.running := null;
      }
    }
  }

  /** The job, or the name of the one that runs. */
  datatype Started = Running(job: Job) | Busy(name: string)

  method Start(state: AppState, name: string) returns (r: Started)
    modifies state
    ensures old(state.running) != null ==>
              r == Busy(old(state.name)) && unchanged(state)
    ensures old(state.running) == null ==>
              && r.Running?
              && fresh(r.job) && fresh(r.job.cancel) && !r.job.cancel.raised
              && r.job.state == state && state.running == r.job.cancel && state.name == name
  {
    if state.running != null {
      return Busy(state.name);
    }
    var cancel := new CancelFlag();
    state.running, state.name := cancel, name;
    var job := new Job(state, cancel);
    return Running(job);
  }

  /** Raises the running job's flag and no other. */
  method Cancel(state: AppState)
    modifies if state.running == null then {} else {state.running}
    ensures state.running != null ==> state.running.raised
  {
    if state.running != null {
      state.running.raised := true;
    }
  }

  /** `run_job`: the slot is free by the time the outcome is known, a panic
      counts as a failure. */
  method RunJob(job: Job, body: Outcome) returns (event: OutcomeEvent)
    modifies job.state
    ensures job.state.running == if old(job.state.running) == job.cancel then null else old(job.state.running)
    ensures event == EventFor(body)
    ensures event.FinishedEvent? <==> body == Returned(true)
  {
    job.Drop();
    match body {
      case Returned(ok) => event := if ok then FinishedEvent else ErrorEvent;
      case Panicked => event := ErrorEvent;
    }
  }
}
