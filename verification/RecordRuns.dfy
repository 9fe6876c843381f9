/** The record file among several processes: they read it under a shared lock
    and change it under one of their own, and each may stop for ever at any
    point. */
module RecordRuns {
  import opened Text
  import opened FileSystem
  import opened Record

  /** A thread of some process: idle; reading under the shared lock; changing
      under the exclusive one, with the record it read, then with a temporary
      file being written, then with that file whole; or stopped for ever. */
  datatype At =
    | Idle
    | Reading
    | Locked(change: Change)
    | Loaded(change: Change, record: Record)
    | Writing(change: Change, record: Record)
    | Written(change: Change, record: Record)
    | Renamed
    | Dead

  /** A thread, and the process its temporary file is named for. */
  datatype Thread = Thread(process: nat, at: At)

  datatype Lock = Free | Shared(readers: set<nat>) | Exclusive(writer: nat)

  /** The file, its lock, the temporary file of each process, the threads, and
      histories: the changes that took effect, since what, and every answer a
      read gave with how many changes had taken effect. */
  datatype System = System(
    file: Content, lock: Lock, tmp: map<nat, Content>, threads: seq<Thread>,
    base: Content, commits: seq<Change>, answers: seq<(Result<Record>, nat)>)

  datatype Move =
    | BeginRead
    | FinishRead
    | BeginChange(change: Change)
    | Load
    | StartWriting
    | FinishWriting
    | Rename
    | Unlock
    | Fail
    | Crash
    | Restart

  predicate Locking(at: At) {
    at.Locked? || at.Loaded? || at.Writing? || at.Written? || at.Renamed?
  }

  function To(s: System, t: nat, at: At): System
    requires t < |s.threads|
  {
    s.(threads := s.threads[t := s.threads[t].(at := at)])
  }

  /** The lock once `t` has closed its handle. */
  function Released(lock: Lock, t: nat): Lock {
    match lock
    case Free => Free
    case Shared(readers) => if readers - {t} == {} then Free else Shared(readers - {t})
    case Exclusive(writer) => if writer == t then Free else lock
  }

  /** One step of thread `t`. A step it cannot take now changes nothing: a lock
      held by another is waited for. */
  function Step(s: System, t: nat, m: Move): System
    requires t < |s.threads|
  {
    var at := s.threads[t].at;
    var process := s.threads[t].process;
    match m
    case BeginRead =>
      if at.Idle? && !s.lock.Exclusive?
      then To(s, t, Reading).(lock := Shared(if s.lock.Free? then {t} else s.lock.readers + {t})) else s
    case FinishRead =>
      if at.Reading?
      then To(s, t, Idle).(lock := Released(s.lock, t), answers := s.answers + [(Parsed(s.file), |s.commits|)]) else s
    case BeginChange(change) =>
      if at.Idle? && s.lock.Free? then To(s, t, Locked(change)).(lock := Exclusive(t)) else s
    case Load =>
      if !at.Locked? then s
      else if Parsed(s.file).Err? then To(s, t, Idle).(lock := Released(s.lock, t))
      else To(s, t, Loaded(at.change, Parsed(s.file).value))
    case StartWriting =>
      if at.Loaded? then To(s, t, Writing(at.change, at.record)).(tmp := s.tmp[process := Damaged]) else s
    case FinishWriting =>
      if at.Writing?
      then To(s, t, Written(at.change, at.record)).(tmp := s.tmp[process := Holds(Changed(at.record, at.change))])
      else s
    case Rename =>
      if at.Written? && process in s.tmp
      then To(s, t, Renamed).(file := s.tmp[process], tmp := s.tmp - {process}, commits := s.commits + [at.change])
      else s
    case Unlock => if at.Renamed? then To(s, t, Idle).(lock := Released(s.lock, t)) else s
    case Fail => if at.Reading? || Locking(at) then To(s, t, Idle).(lock := Released(s.lock, t)) else s
    case Crash => To(s, t, Dead).(lock := Released(s.lock, t))
    case Restart => if at.Dead? then To(s, t, Idle) else s
  }

  /** Another program damages the file, or the person moves it aside, while no
      change is under way: the record starts again from there. */
  function FromOutside(s: System, file: Content): System {
    if s.lock.Exclusive? then s else s.(file := file, base := file, commits := [], answers := [])
  }

  datatype Turn = ThreadTurn(thread: nat, move: Move) | OutsideTurn(file: Content)

  function Turned(s: System, turn: Turn): System {
    match turn
    case ThreadTurn(t, m) => if t < |s.threads| then Step(s, t, m) else s
    case OutsideTurn(file) => FromOutside(s, file)
  }

  function Run(s: System, turns: seq<Turn>): System
    decreases |turns|
  {
    if turns == [] then s else Run(Turned(s, turns[0]), turns[1..])
  }

  /** Threads of any processes, idle, with any file and any leftovers of
      processes that stopped before. */
  predicate Initial(s: System) {
    && s.lock == Free
    && (forall thread <- s.threads :: thread.at.Idle?)
    && s.base == s.file && s.commits == [] && s.answers == []
  }

  // ----- One history for everybody ----------------------------------------------

  /** The record after `changes`, from `base`. */
  function Folded(base: Content, changes: seq<Change>): Content
    decreases |changes|
  {
    if changes == [] then base
    else
      var before := Folded(base, changes[..|changes| - 1]);
      match Parsed(before)
      case Ok(r) => Holds(Changed(r, changes[|changes| - 1]))
      case Err(_) => before
  }

  /** Who has the lock is who is in a section that needs it. */
  predicate LockInv(s: System) {
    && (s.lock.Exclusive? ==> s.lock.writer < |s.threads| && Locking(s.threads[s.lock.writer].at))
    && (s.lock.Shared? ==> s.lock.readers != {})
    && (forall t | 0 <= t < |s.threads| && Locking(s.threads[t].at) :: s.lock == Exclusive(t))
    && (forall t | 0 <= t < |s.threads| && s.threads[t].at.Reading? :: s.lock.Shared? && t in s.lock.readers)
    && (s.lock.Shared? ==> forall t <- s.lock.readers :: t < |s.threads| && s.threads[t].at.Reading?)
  }

  /** A thread that has read the file still has what the file holds. */
  predicate ViewInv(s: System, t: nat)
    requires t < |s.threads|
  {
    var at := s.threads[t].at;
    && (at.Loaded? || at.Writing? || at.Written? ==> Parsed(s.file) == Ok(at.record))
    && (at.Written? ==> s.threads[t].process in s.tmp
                        && s.tmp[s.threads[t].process] == Holds(Changed(at.record, at.change)))
  }

  predicate FileInv(s: System) {
    && s.file == Folded(s.base, s.commits)
    && (s.commits != [] ==> Parsed(s.base).Ok?)
    && (forall k | 0 <= k < |s.answers| ::
          s.answers[k].1 <= |s.commits| && s.answers[k].0 == Parsed(Folded(s.base, s.commits[..s.answers[k].1])))
    && (forall k, l | 0 <= k < l < |s.answers| :: s.answers[k].1 <= s.answers[l].1)
  }

  predicate SystemInv(s: System) {
    && LockInv(s)
    && (forall t | 0 <= t < |s.threads| :: ViewInv(s, t))
    && FileInv(s)
  }

  lemma LockStays(s: System, t: nat, m: Move)
    requires LockInv(s) && t < |s.threads|
    ensures LockInv(Step(s, t, m))
  {
    hide Parsed, Changed, Released, LockInv;
    var at, u := s.threads[t].at, Step(s, t, m);
    if m.BeginRead? && at.Idle? && !s.lock.Exclusive? {
      LockShared(s, u, t);
    } else if m.BeginChange? && at.Idle? && s.lock.Free? {
      LockExclusively(s, u, t);
    } else if u.lock == Released(s.lock, t) && !u.threads[t].at.Reading? && !Locking(u.threads[t].at) {
      LockReleased(s, u, t);
    } else {
      LockUntouched(s, u, t);
    }
  }

  /** `u` is `s` but for where thread `t` is, the lock, and what the lock guards. */
  predicate OnlyMoves(s: System, u: System, t: nat) {
    && t < |s.threads| == |u.threads|
    && forall i | 0 <= i < |s.threads| && i != t :: u.threads[i] == s.threads[i]
  }

  lemma LockUntouched(s: System, u: System, t: nat)
    requires LockInv(s) && OnlyMoves(s, u, t) && u.lock == s.lock
    requires Locking(u.threads[t].at) <==> Locking(s.threads[t].at)
    requires u.threads[t].at.Reading? <==> s.threads[t].at.Reading?
    ensures LockInv(u)
  {
    forall i | 0 <= i < |u.threads|
      ensures (Locking(u.threads[i].at) <==> Locking(s.threads[i].at))
              && (u.threads[i].at.Reading? <==> s.threads[i].at.Reading?)
    {
    }
  }

  lemma LockReleased(s: System, u: System, t: nat)
    requires LockInv(s) && OnlyMoves(s, u, t) && u.lock == Released(s.lock, t)
    requires !Locking(u.threads[t].at) && !u.threads[t].at.Reading?
    ensures LockInv(u)
  {
    if s.lock.Shared? {
      forall i | 0 <= i < |u.threads| && u.threads[i].at.Reading?
        ensures i in s.lock.readers - {t}
      {
        assert s.threads[i].at.Reading?;
      }
    }
  }

  lemma LockShared(s: System, u: System, t: nat)
    requires LockInv(s) && OnlyMoves(s, u, t) && !s.lock.Exclusive? && u.threads[t].at.Reading?
    requires u.lock == Shared(if s.lock.Free? then {t} else s.lock.readers + {t})
    ensures LockInv(u)
  {
  }

  lemma LockExclusively(s: System, u: System, t: nat)
    requires LockInv(s) && OnlyMoves(s, u, t) && s.lock.Free? && Locking(u.threads[t].at)
    requires u.lock == Exclusive(t)
    ensures LockInv(u)
  {
  }

  lemma ViewStays(s: System, t: nat, m: Move, u: nat)
    requires LockInv(s) && t < |s.threads| && u < |s.threads|
    requires ViewInv(s, t) && ViewInv(s, u)
    ensures ViewInv(Step(s, t, m), u)
  {
    hide Changed;
  }

  lemma {:induction false} FoldedAppend(base: Content, changes: seq<Change>, c: Change)
    requires Parsed(base).Ok?
    ensures Parsed(Folded(base, changes)).Ok?
    ensures Folded(base, changes + [c]) == Holds(Changed(Parsed(Folded(base, changes)).value, c))
    decreases |changes|
  {
    assert (changes + [c])[..|changes|] == changes;
    if changes != [] {
      var last := |changes| - 1;
      assert changes == changes[..last] + [changes[last]];
      FoldedAppend(base, changes[..last], changes[last]);
    }
  }

  lemma {:induction false} FoldedDamage(changes: seq<Change>)
    ensures Folded(Damaged, changes) == Damaged
    decreases |changes|
  {
    if changes != [] {
      FoldedDamage(changes[..|changes| - 1]);
    }
  }

  lemma CommitKeepsFile(s: System, c: Change)
    requires FileInv(s) && Parsed(s.file).Ok?
    ensures FileInv(s.(file := Holds(Changed(Parsed(s.file).value, c)), commits := s.commits + [c]))
  {
    hide Changed;
    var u := s.(file := Holds(Changed(Parsed(s.file).value, c)), commits := s.commits + [c]);
    if s.commits == [] {
      assert Folded(s.base, s.commits) == s.base;
    }
    FoldedAppend(s.base, s.commits, c);
    forall k | 0 <= k < |u.answers|
      ensures u.answers[k].1 <= |u.commits|
      ensures u.answers[k].0 == Parsed(Folded(u.base, u.commits[..u.answers[k].1]))
    {
      assert u.commits[..u.answers[k].1] == s.commits[..s.answers[k].1];
    }
  }

  lemma AnswerKeepsFile(s: System)
    requires FileInv(s)
    ensures FileInv(s.(answers := s.answers + [(Parsed(s.file), |s.commits|)]))
  {
    hide Parsed, Folded;
    assert s.commits[..|s.commits|] == s.commits;
  }

  /** What the file and its histories become, beside what `FileInv` ignores. */
  lemma FileStays(s: System, t: nat, m: Move)
    requires FileInv(s) && t < |s.threads| && ViewInv(s, t)
    ensures FileInv(Step(s, t, m))
  {
    hide FileInv, Changed, Folded;
    var at := s.threads[t].at;
    var f := s;
    if m.Rename? && at.Written? {
      CommitKeepsFile(s, at.change);
      f := s.(file := Holds(Changed(at.record, at.change)), commits := s.commits + [at.change]);
    } else if m.FinishRead? && at.Reading? {
      AnswerKeepsFile(s);
      f := s.(answers := s.answers + [(Parsed(s.file), |s.commits|)]);
    }
    SameFile(f, Step(s, t, m));
  }

  lemma SameFile(s: System, u: System)
    requires FileInv(s)
    requires u.file == s.file && u.base == s.base && u.commits == s.commits && u.answers == s.answers
    ensures FileInv(u)
  {
  }

  lemma TurnKeepsInv(s: System, turn: Turn)
    requires SystemInv(s)
    ensures SystemInv(Turned(s, turn))
  {
    hide LockInv, ViewInv, FileInv, Step;
    match turn {
      case ThreadTurn(t, m) =>
        if t < |s.threads| {
          LockStays(s, t, m);
          ThreadsStay(s, t, m);
          forall u | 0 <= u < |s.threads| ensures ViewInv(Step(s, t, m), u) {
            ViewStays(s, t, m, u);
          }
          FileStays(s, t, m);
        }
      case OutsideTurn(file) => OutsideKeepsInv(s, file);
    }
  }

  lemma ThreadsStay(s: System, t: nat, m: Move)
    requires t < |s.threads|
    ensures |Step(s, t, m).threads| == |s.threads|
  {
  }

  lemma OutsideKeepsInv(s: System, file: Content)
    requires SystemInv(s)
    ensures SystemInv(FromOutside(s, file))
  {
    forall t | 0 <= t < |s.threads| ensures ViewInv(FromOutside(s, file), t) {
      assert ViewInv(s, t);
    }
  }

  lemma {:induction false} RunKeepsInv(s: System, turns: seq<Turn>)
    requires SystemInv(s)
    ensures SystemInv(Run(s, turns))
    decreases |turns|
  {
    hide SystemInv, Turned;
    if turns != [] {
      TurnKeepsInv(s, turns[0]);
      RunKeepsInv(Turned(s, turns[0]), turns[1..]);
    }
  }

  /** Whatever the processes interleave and wherever they stop: the file is the
      committed changes one after another, every read saw such a file, and a
      damaged file has had nothing written over it. */
  lemma EveryRunIsSerial(s: System, turns: seq<Turn>)
    requires Initial(s)
    ensures var u := Run(s, turns);
            && u.file == Folded(u.base, u.commits)
            && (forall k | 0 <= k < |u.answers| ::
                  u.answers[k].1 <= |u.commits| && u.answers[k].0 == Parsed(Folded(u.base, u.commits[..u.answers[k].1])))
            && (u.base == Damaged ==> u.file == Damaged && u.commits == [])
  {
    forall t | 0 <= t < |s.threads| ensures ViewInv(s, t) && s.threads[t].at.Idle? {
      assert s.threads[t] in s.threads;
    }
    RunKeepsInv(s, turns);
  }

  /** A folder is recorded exactly when it was recorded to begin with or added,
      and not forgotten since: no other change, by any process, loses it. */
  function Listed(base: Content, changes: seq<Change>, path: Names): bool
    decreases |changes|
  {
    if changes == [] then base.Holds? && exists made <- base.record.folders :: made.path == path
    else
      var last := changes[|changes| - 1];
      if last.Add? && last.made.path == path then true
      else if last == Forget(path) then false
      else Listed(base, changes[..|changes| - 1], path)
  }

  lemma FolderAfter(r: Record, c: Change, path: Names)
    ensures (exists made <- Changed(r, c).folders :: made.path == path) <==>
            (c.Add? && c.made.path == path)
            || (c != Forget(path) && exists made <- r.folders :: made.path == path)
  {
    match c {
      case SetRoot(_) =>
      case Add(made) =>
        assert forall x :: x in r.folders + [made] <==> x in r.folders || x == made;
      case Forget(gone) =>
        forall made ensures made in Without(r.folders, gone) <==> made in r.folders && made.path != gone {
          WithoutIsExact(r.folders, gone, made);
        }
    }
  }

  lemma {:induction false} NoFolderIsLost(base: Content, changes: seq<Change>, path: Names)
    requires Parsed(base).Ok?
    ensures Parsed(Folded(base, changes)).Ok?
    ensures Listed(base, changes, path) <==>
            exists made <- Parsed(Folded(base, changes)).value.folders :: made.path == path
    decreases |changes|
  {
    if changes != [] {
      var rest, last := changes[..|changes| - 1], changes[|changes| - 1];
      NoFolderIsLost(base, rest, path);
      assert changes == rest + [last];
      FoldedAppend(base, rest, last);
      FolderAfter(Parsed(Folded(base, rest)).value, last, path);
    }
  }

  /** The setting last stored, or the one to begin with. */
  function LastRoot(base: Content, changes: seq<Change>): Option<Path>
    decreases |changes|
  {
    if changes == [] then (if base.Holds? then base.record.root else None)
    else
      match changes[|changes| - 1]
      case SetRoot(root) => root
      case _ => LastRoot(base, changes[..|changes| - 1])
  }

  lemma {:induction false} RootIsTheLastStored(base: Content, changes: seq<Change>)
    requires Parsed(base).Ok?
    ensures Parsed(Folded(base, changes)).Ok?
    ensures Parsed(Folded(base, changes)).value.root == LastRoot(base, changes)
    decreases |changes|
  {
    if changes != [] {
      var rest, last := changes[..|changes| - 1], changes[|changes| - 1];
      RootIsTheLastStored(base, rest);
      assert changes == rest + [last];
      FoldedAppend(base, rest, last);
    }
  }

  /** A change that finds the lock free and a record that reads, and is not
      stopped, takes effect, whatever leftovers of others there are. */
  lemma UndisturbedChangesCommit(s: System, t: nat, c: Change)
    requires t < |s.threads| && s.threads[t].at.Idle? && s.lock.Free? && Parsed(s.file).Ok?
    ensures var begun := Step(s, t, BeginChange(c));
            var written := Step(Step(Step(begun, t, Load), t, StartWriting), t, FinishWriting);
            var renamed := Step(written, t, Rename);
            var u := Step(renamed, t, Unlock);
            && begun.lock == Exclusive(t) && written.file == s.file
            && u.file == Holds(Changed(Parsed(s.file).value, c)) && u.commits == s.commits + [c]
            && u.lock.Free? && u.threads[t].at.Idle?
  {
    hide Parsed, Changed;
  }

  /** A read that finds no change under way is answered with what the file holds. */
  lemma UndisturbedReadsAnswer(s: System, t: nat)
    requires t < |s.threads| && s.threads[t].at.Idle? && !s.lock.Exclusive?
    ensures var u := Step(Step(s, t, BeginRead), t, FinishRead);
            && u.answers == s.answers + [(Parsed(s.file), |s.commits|)] && u.file == s.file
            && u.threads[t].at.Idle?
  {
    hide Parsed;
  }

  /** What a reader learns, on every run: a damaged file is an error and never an
      empty record, and otherwise exactly the folders added and not forgotten by
      the changes made so far, by whichever process, and the setting stored last; a
      later read sees no fewer changes. */
  lemma ReadersLearnTheFolders(s: System, turns: seq<Turn>, k: nat)
    requires Initial(s) && k < |Run(s, turns).answers|
    ensures var u := Run(s, turns); var (answer, seen) := u.answers[k];
            && seen <= |u.commits|
            && (answer.Err? <==> u.base.Damaged?)
            && (answer.Ok? ==> forall path ::
                  (exists made <- answer.value.folders :: made.path == path) <==>
                  Listed(u.base, u.commits[..seen], path))
            && (answer.Ok? ==> answer.value.root == LastRoot(u.base, u.commits[..seen]))
            && (forall l | k < l < |u.answers| :: seen <= u.answers[l].1)
  {
    forall t | 0 <= t < |s.threads| ensures ViewInv(s, t) && s.threads[t].at.Idle? {
      assert s.threads[t] in s.threads;
    }
    RunKeepsInv(s, turns);
    hide Run, LockInv, ViewInv, Folded, Listed;
    var u := Run(s, turns);
    var (answer, seen) := u.answers[k];
    if u.base.Damaged? {
      FoldedDamage(u.commits[..seen]);
    } else {
      forall path ensures
          Parsed(Folded(u.base, u.commits[..seen])).Ok?
          && (Listed(u.base, u.commits[..seen], path) <==>
              exists made <- Parsed(Folded(u.base, u.commits[..seen])).value.folders :: made.path == path)
      {
        NoFolderIsLost(u.base, u.commits[..seen], path);
      }
      RootIsTheLastStored(u.base, u.commits[..seen]);
    }
  }
}
