/** `LocalServer`: the state of the app's own Message Crate together with the
    processes and threads it set going. The functions say what each critical
    section does; the class is the program's own form of them. */
module Host {
  import opened Text
  import opened Supervisor
  import opened Output

  const EVERY_ADDRESS := "0.0.0.0"

  datatype Address = Address(ip: string, port: nat)

  /** What the app needs to start its server. */
  datatype Launch = Launch(program: string, dataDir: string, address: Address, openToNetwork: bool)

  /** The address the server is told to listen on. */
  function Bind(l: Launch): Address {
    if l.openToNetwork then Address(EVERY_ADDRESS, l.address.port) else l.address
  }

  /** One server the app started: under which generation and with what it was
      started, whether it still runs, and its output. */
  datatype Process = Process(generation: nat, launch: Launch, running: bool, pipes: Pipes)

  /** A watcher polls its server; once that has exited it joins the readers it
      took, without the lock, before it looks at the generation again. */
  datatype Watching = Polling | Reaping(readers: Option<nat>, output: Option<nat>) | Gone

  datatype Watcher = Watcher(generation: nat, at: Watching)

  /** What the lock guards. Processes, and with them their readers, output and
      flag, are named by their place in `Host.procs`. */
  datatype Inner = Inner(
    state: State, launch: Option<Launch>, firstTime: bool, child: Option<nat>,
    readers: Option<nat>, output: Option<nat>, listened: Option<nat>, generation: nat)

  /** `inner` with every process and watcher thread ever started, and how many
      questions to the address are under way. */
  datatype Host = Host(inner: Inner, procs: seq<Process>, watchers: seq<Watcher>, probes: nat)

  const INITIAL_HOST := Host(Inner(INITIAL, None, false, None, None, None, None, 0), [], [], 0)

  /** What the operating system answers when the server program is started:
      whether it started, why not, and whether there was no database yet. */
  datatype Os = Os(starts: bool, error: string, firstStart: bool)

  /** What the screens are told. */
  datatype Status = NotAsked | ComingUp(firstTime: bool) | Ready(startedByApp: bool) | Down(portTaken: bool, details: string)

  // ----- What each action does ----------------------------------------------

  function AfterExit(p: Process): Process {
    p.(running := false, pipes := Close(p.pipes))
  }

  /** `Inner::kill`: what is held, if anything, has ended and is let go of, and the
      generation has passed either way. */
  function KillChild(h: Host): Host {
    var inner := h.inner.(generation := h.inner.generation + 1, readers := None, child := None);
    if h.inner.child.Some? && h.inner.child.value < |h.procs| then
      var pid := h.inner.child.value;
      h.(inner := inner, procs := h.procs[pid := AfterExit(h.procs[pid])])
    else h.(inner := inner)
  }

  /** `spawn`: start the server from the last request, open when `open`, and a
      watcher for it. The second part is why that failed. */
  function SpawnServer(h: Host, open: bool, os: Os): (Host, Option<string>) {
    if h.inner.launch.None? then (h, Some("The app was not told how to start its server."))
    else
      var launch := h.inner.launch.value.(openToNetwork := open);
      var inner := h.inner.(firstTime := os.firstStart);
      if !os.starts then (h.(inner := inner), Some(os.error))
      else
        var pid := |h.procs|;
        var generation := inner.generation + 1;
        (h.(inner := inner.(generation := generation, child := Some(pid), readers := Some(pid),
                            output := Some(pid), listened := Some(pid)),
            procs := h.procs + [Process(generation, launch, true, NEW_PIPES)],
            watchers := h.watchers + [Watcher(generation, Polling)]),
         None)
  }

  function StartProbe(h: Host): Host {
    if h.inner.launch.None? then h else h.(probes := h.probes + 1)
  }

  function Perform(h: Host, a: Action, os: Os): (Host, Option<string>) {
    match a
    case Probe => (StartProbe(h), None)
    case ProbeLater => (StartProbe(h), None)
    case Kill => (KillChild(h), None)
    case Spawn(open) => SpawnServer(h, open, os)
  }

  /** The actions of one step, and an event for each start that failed. */
  function PerformAll(h: Host, actions: seq<Action>, os: Os): (Host, seq<Event>)
    decreases |actions|
  {
    if actions == [] then (h, [])
    else
      var (h1, error) := Perform(h, actions[0], os);
      var (h2, later) := PerformAll(h1, actions[1..], os);
      (h2, (if error.Some? then [SpawnFailed(error.value)] else []) + later)
  }

  function WithState(h: Host, s: State): Host {
    h.(inner := h.inner.(state := s))
  }

  /** `apply`: one event and everything it asks for, a failed start reported
      back. A step asks for at most one start. */
  function Apply(h: Host, e: Event, os: Os): Host {
    var (s, actions) := Step(h.inner.state, e);
    var (h1, failed) := PerformAll(WithState(h, s), actions, os);
    if failed == [] then h1 else WithState(h1, Step(h1.inner.state, failed[0]).0)
  }

  /** The six things a step can ask for, so at most one failed start. */
  lemma AtMostOneFailure(h: Host, s: State, e: Event, os: Os)
    ensures Step(s, e).1 in {[], [Probe], [ProbeLater], [Kill]}
            || exists open :: Step(s, e).1 == [Spawn(open)] || Step(s, e).1 == [Kill, Spawn(open)]
    ensures |PerformAll(h, Step(s, e).1, os).1| <= 1
    ensures forall failed <- PerformAll(h, Step(s, e).1, os).1 :: failed.SpawnFailed?
    ensures e.SpawnFailed? ==> Step(s, e).1 == []
  {
    var actions := Step(s, e).1;
    if |actions| == 2 {
      assert actions[1..] == [actions[1]] && actions[1..][1..] == [];
      var h1 := Perform(h, actions[0], os).0;
      assert PerformAll(h1, actions[1..], os).1 ==
             (if Perform(h1, actions[1], os).1.Some? then [SpawnFailed(Perform(h1, actions[1], os).1.value)] else []) + [];
    }
  }

  function StatusOf(inner: Inner): Status {
    match inner.state.phase
    case Idle => NotAsked
    case Probing => ComingUp(inner.firstTime)
    case Starting(_) => ComingUp(inner.firstTime)
    case Lost(_, _) => ComingUp(inner.firstTime)
    case Own(_) => Ready(true)
    case Found(_) => Ready(false)
    case PortTaken => Down(true, "")
    case Failed(_, details) => Down(false, details)
  }

  // ----- Every critical section, and everything between them ----------------

  datatype Move =
    | EnsureStarted(launch: Launch, first: bool)
    | SetOpen(open: bool)
    | AskStatus
    | JobBegins
    | JobGuardDropped
    | Stop
    | ProbeAnswers(answer: Answer)
    | Poll(watcher: nat, heard: bool, late: bool)
    | Report(watcher: nat)
    | Writes(pid: nat, stream: Stream, item: Item)
    | Exits(pid: nat)
    | Takes(pid: nat, stream: Stream)
    | Keeps(pid: nat, stream: Stream)

  /** The output an `Arc` to a process's deque shows now. */
  function OutputAt(h: Host, output: Option<nat>): string {
    if output.Some? && output.value < |h.procs|
    then JoinLines(h.procs[output.value].pipes.lines) else ""
  }

  predicate HasListened(h: Host) {
    h.inner.listened.Some? && h.inner.listened.value < |h.procs|
    && h.procs[h.inner.listened.value].pipes.listened
  }

  predicate ChildExitedBy(h: Host) {
    h.inner.child.None? || h.inner.child.value >= |h.procs| || !h.procs[h.inner.child.value].running
  }

  predicate ReadersDone(h: Host, readers: Option<nat>) {
    readers.Some? && readers.value < |h.procs| ==> Drained(h.procs[readers.value].pipes)
  }

  function WithWatcher(h: Host, i: nat, at: Watching): Host
    requires i < |h.watchers|
  {
    h.(watchers := h.watchers[i := h.watchers[i].(at := at)])
  }

  /** `ensure_started`. */
  function Ensure(h: Host, launch: Launch, first: bool, os: Os): Host {
    var phase := h.inner.state.phase;
    var firstTime := if Settled(phase) || phase.Found? then first else h.inner.firstTime;
    Apply(h.(inner := h.inner.(firstTime := firstTime, launch := Some(launch))),
          Requested(launch.openToNetwork), os)
  }

  /** One pass of the loop in `watch`. A flag set by a reader may be seen late,
      so `heard` holds it back; `late` says the deadline has passed. */
  function PollOnce(h: Host, i: nat, heard: bool, late: bool, os: Os): Host
    requires i < |h.watchers|
  {
    if h.watchers[i].generation != h.inner.generation then WithWatcher(h, i, Gone)
    else if ChildExitedBy(h) then
      WithWatcher(h, i, Reaping(h.inner.readers, h.inner.output))
        .(inner := h.inner.(child := None, readers := None))
    else
      var h1 := if heard && HasListened(h) then Apply(h, Listening, os) else h;
      if late && h1.inner.state.phase.Starting?
      then Apply(h1, Deadline(OutputAt(h1, h1.inner.output)), os) else h1
  }

  /** The end of `watch`, once the readers have been joined. */
  function ReportExit(h: Host, i: nat, os: Os): Host
    requires i < |h.watchers| && h.watchers[i].at.Reaping?
  {
    var output := OutputAt(h, h.watchers[i].at.output);
    var h1 := WithWatcher(h, i, Gone);
    if h.watchers[i].generation == h.inner.generation then Apply(h1, ChildExited(output), os) else h1
  }

  function WithPipes(h: Host, pid: nat, pipes: Pipes): Host
    requires pid < |h.procs|
  {
    h.(procs := h.procs[pid := h.procs[pid].(pipes := pipes)])
  }

  /** One move. One that cannot happen now changes nothing. */
  function MoveOnce(h: Host, m: Move, os: Os): Host {
    match m
    case EnsureStarted(launch, first) => Ensure(h, launch, first, os)
    case SetOpen(open) => Apply(h, Configured(open), os)
    case AskStatus => Apply(h, Check, os)
    case JobBegins => Apply(h, JobStarted, os)
    case JobGuardDropped => Apply(h, JobEnded, os)
    case Stop => Apply(h, Stopped, os)
    case ProbeAnswers(answer) =>
      if h.probes == 0 then h else Apply(h.(probes := h.probes - 1), Probed(answer), os)
    case Poll(i, heard, late) =>
      if i < |h.watchers| && h.watchers[i].at.Polling? then PollOnce(h, i, heard, late, os) else h
    case Report(i) =>
      if i < |h.watchers| && h.watchers[i].at.Reaping? && ReadersDone(h, h.watchers[i].at.readers)
      then ReportExit(h, i, os) else h
    case Writes(pid, s, item) =>
      if pid < |h.procs| && h.procs[pid].running
      then WithPipes(h, pid, Write(h.procs[pid].pipes, s, item)) else h
    case Exits(pid) =>
      if pid < |h.procs| then h.(procs := h.procs[pid := AfterExit(h.procs[pid])]) else h
    case Takes(pid, s) => if pid < |h.procs| then WithPipes(h, pid, Take(h.procs[pid].pipes, s)) else h
    case Keeps(pid, s) => if pid < |h.procs| then WithPipes(h, pid, Keep(h.procs[pid].pipes, s)) else h
  }

  // ----- The program's own form ---------------------------------------------

  /** The state under the lock, with the processes and threads the operating
      system runs for it. Each method is one critical section. */
  class LocalServer {
    var state: State
    var launch: Option<Launch>
    var firstTime: bool
    var child: Option<nat>
    var readers: Option<nat>
    var output: Option<nat>
    var listened: Option<nat>
    var generation: nat

    var procs: seq<Process>
    var watchers: seq<Watcher>
    var probes: nat

    ghost function View(): Host
      reads this
    {
      Host(Inner(state, launch, firstTime, child, readers, output, listened, generation),
           procs, watchers, probes)
    }

    constructor ()
      ensures View() == INITIAL_HOST
    {
      state, launch, firstTime := INITIAL, None, false;
      child, readers, output, listened, generation := None, None, None, None, 0;
      procs, watchers, probes := [], [], 0;
    }

    method KillServer()
      modifies this
      ensures View() == KillChild(old(View()))
    {
      generation := generation + 1;
      readers := None;
      if child.Some? && child.value < |procs| {
        procs := procs[child.value := AfterExit(procs[child.value])];
      }
      child := None;
    }

    method SpawnAndWatch(open: bool, os: Os) returns (error: Option<string>)
      modifies this
      ensures (View(), error) == SpawnServer(old(View()), open, os)
    {
      if launch.None? {
        return Some("The app was not told how to start its server.");
      }
      var launched := launch.value.(openToNetwork := open);
      firstTime := os.firstStart;
      if !os.starts {
        return Some(os.error);
      }
      var pid := |procs|;
      generation := generation + 1;
      procs := procs + [Process(generation, launched, true, NEW_PIPES)];
      child, readers, output, listened := Some(pid), Some(pid), Some(pid), Some(pid);
      watchers := watchers + [Watcher(generation, Polling)];
      return None;
    }

    method ProbeInBackground()
      modifies this
      ensures View() == StartProbe(old(View()))
    {
      if launch.Some? {
        probes := probes + 1;
      }
    }

    /** The actions of one step, in order. */
    method DoAll(actions: seq<Action>, os: Os) returns (failed: seq<Event>)
      modifies this
      ensures View() == PerformAll(old(View()), actions, os).0
      ensures failed == PerformAll(old(View()), actions, os).1
    {
      hide KillChild, SpawnServer, StartProbe;
      failed := [];
      var i := 0;
      while i < |actions|
        invariant i <= |actions|
        invariant PerformAll(View(), actions[i..], os).0 == PerformAll(old(View()), actions, os).0
        invariant failed + PerformAll(View(), actions[i..], os).1 == PerformAll(old(View()), actions, os).1
      {
        ghost var before, rest := View(), PerformAll(View(), actions[i..], os);
        assert actions[i..][1..] == actions[i + 1..];
        match actions[i] {
          case Probe => ProbeInBackground();
          case ProbeLater => ProbeInBackground();
          case Kill => KillServer();
          case Spawn(open) =>
            var error := SpawnAndWatch(open, os);
            if error.Some? {
              failed := failed + [SpawnFailed(error.value)];
            }
        }
        i := i + 1;
      }
    }

    /** `apply`: works off the queue, which never holds more than one event. */
    method RunEvent(event: Event, os: Os) returns (rounds: nat)
      modifies this
      ensures View() == Apply(old(View()), event, os)
      ensures rounds <= 2
    {
      var events := [event];
      rounds := 0;
      while events != []
        invariant rounds == 0 ==> events == [event] && View() == old(View())
        invariant rounds == 1 && events != [] ==>
                    && |events| == 1 && events[0].SpawnFailed?
                    && Apply(old(View()), event, os) == WithState(View(), Step(state, events[0]).0)
        invariant rounds > 0 && events == [] ==> View() == Apply(old(View()), event, os)
        invariant rounds <= 2 && (rounds == 2 ==> events == [])
        decreases 2 - rounds
      {
        var next := events[0];
        events := events[1..];
        var decided, actions := Decide(state, next);
        AtMostOneFailure(WithState(View(), decided), state, next, os);
        state := decided;
        var failed := DoAll(actions, os);
        events := events + failed;
        rounds := rounds + 1;
      }
    }

    method Status() returns (status: Status)
      modifies this
      ensures forall os :: View() == Apply(old(View()), Check, os)
      ensures status == StatusOf(View().inner)
    {
      var _ := RunEvent(Check, Os(false, "", false));
      status := CurrentStatus();
    }

    method CurrentStatus() returns (status: Status)
      ensures status == StatusOf(View().inner)
    {
      match state.phase {
        case Idle => status := NotAsked;
        case Probing | Starting(_) | Lost(_, _) => status := ComingUp(firstTime);
        case Own(_) => status := Ready(true);
        case Found(_) => status := Ready(false);
        case PortTaken => status := Down(true, "");
        case Failed(_, details) => status := Down(false, details);
      }
    }

    method EnsureStarted(launch0: Launch, first: bool, os: Os)
      modifies this
      ensures View() == Ensure(old(View()), launch0, first, os)
    {
      if Settled(state.phase) || state.phase.Found? {
        firstTime := first;
      }
      launch := Some(launch0);
      var _ := RunEvent(Requested(launch0.openToNetwork), os);
    }

    method SetOpenToNetwork(open: bool, os: Os) returns (status: Status)
      modifies this
      ensures View() == Apply(old(View()), Configured(open), os)
      ensures status == StatusOf(View().inner)
    {
      var _ := RunEvent(Configured(open), os);
      status := CurrentStatus();
    }

    /** One pass of `watch`'s loop. */
    method WatchOnce(i: nat, heard: bool, late: bool, os: Os)
      requires i < |watchers|
      modifies this
      ensures View() == PollOnce(old(View()), i, heard, late, os)
    {
      if generation != watchers[i].generation {
        watchers := watchers[i := watchers[i].(at := Gone)];
        return;
      }
      var exited := child.None? || child.value >= |procs| || !procs[child.value].running;
      if exited {
        child := None;
        watchers := watchers[i := watchers[i].(at := Reaping(readers, output))];
        readers := None;
        return;
      }
      if heard && listened.Some? && listened.value < |procs| && procs[listened.value].pipes.listened {
        var _ := RunEvent(Listening, os);
      }
      if state.phase.Starting? && late {
        var text := Joined(output);
        var _ := RunEvent(Deadline(text), os);
      }
    }

    /** The end of `watch`, the readers joined. */
    method WatchEnds(i: nat, os: Os)
      requires i < |watchers| && watchers[i].at.Reaping?
      modifies this
      ensures View() == ReportExit(old(View()), i, os)
    {
      var text := Joined(watchers[i].at.output);
      var current := generation == watchers[i].generation;
      watchers := watchers[i := watchers[i].(at := Gone)];
      if current {
        var _ := RunEvent(ChildExited(text), os);
      }
    }

    method Joined(from: Option<nat>) returns (text: string)
      ensures text == OutputAt(View(), from)
    {
      text := if from.Some? && from.value < |procs| then JoinLines(procs[from.value].pipes.lines) else "";
    }
  }
}
