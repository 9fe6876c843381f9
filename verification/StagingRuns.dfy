/** Deletes, creates, queries and setting changes by any number of processes at
    once, each read and change of the record atomic (`RecordRuns`), each file
    system call a step of its own, each operation free to stop for ever. */
module StagingRuns {
  import opened Text
  import opened FileSystem
  import opened Paths
  import opened Record
  import opened Staging

  /** Where one operation is. A delete has its record entry looked up, is it
      gone, is it empty; then is resolved, checked against the record, checked
      for the sentinel, listed and removed piece by piece. `folder` is the three
      checks alone, `openable` one look at the record and the path. A create
      reads the setting, resolves it, makes the Staging Directory and the first
      free folder in it, marks that and records it. */
  datatype Op =
    | Asked(dir: Path)
    | Looked(dir: Path, made: Option<Made>)
    | NotGone(dir: Path, made: Option<Made>)
    | Finishing(dir: Path)
    | Checking(dir: Path, deletes: bool)
    | Resolving(folder: Names, deletes: bool)
    | InRecord(folder: Names, deletes: bool)
    | Accepted(folder: Names)
    | Removing(folder: Names, todo: set<string>)
    | LastFile(folder: Names)
    | LastFolder(folder: Names)
    | Forgetting(target: Option<Names>)
    | Opening(path: Path)
    | Naming(base: string)
    | Placing(base: string, raw: Path)
    | MakingRoot(base: string, root: Names)
    | Trying(base: string, root: Names, n: nat)
    | Marking(folder: Names)
    | Recording(folder: Names)
    | Found(folder: Names)
    | Opens(to: Plain)
    | Done(ok: bool)

  datatype System = System(fs: Fs, record: Record, home: Option<Path>, ops: seq<Op>)

  /** An operation begins, goes on, or stops; the setting changes; or something
      outside the app changes the file system. */
  datatype Turn =
    | BeginDelete(dir: Path)
    | BeginFolder(dir: Path)
    | BeginOpen(path: Path)
    | BeginCreate(what: string, timestamp: string)
    | Act(op: nat, at: Names)
    | StopShort(op: nat)
    | ChangeRoot(root: Option<Path>)
    | Outside(fs: Fs)

  predicate MayAdd(fs: Fs, at: Names) {
    at !in fs.nodes && at != [] && IsDir(fs, Above(at))
  }

  predicate SentinelSeen(fs: Fs, folder: Names) {
    var marker := Lookup(fs, PathTo(Marker(folder)));
    marker.Reached? && marker.at in fs.nodes && fs.nodes[marker.at].File?
  }

  /** Whether `at` is a leaf of an entry still to be removed. */
  predicate IsPiece(fs: Fs, folder: Names, todo: set<string>, at: Names) {
    folder < at && at[|folder|] in todo && at in fs.nodes && !HasChild(fs, at)
  }

  predicate EntryIsGone(fs: Fs, folder: Names, todo: set<string>, at: Names) {
    |at| == |folder| + 1 && folder < at && at[|folder|] in todo && at !in fs.nodes
  }

  /** What one step may do to the file system: nothing, take one thing away
      that has nothing in it, or add one thing. */
  datatype Call = Nothing | Take(at: Names) | Put(at: Names, node: Node)

  /** Whether `at` is where some part of `root` is to be made: the names before it
      lead to the folder it would be in. */
  predicate IsOnTheWay(fs: Fs, root: Names, at: Names) {
    at != []
    && exists k | 0 <= k < |root| :: LeadsTo(fs, root, k, Above(at)) && at[|at| - 1] == root[k]
  }

  /** The call a step makes: `at` is the piece, or the part of the root, it
      picks. */
  function CallOf(fs: Fs, op: Op, at: Names): Call {
    match op
    case Finishing(dir) =>
      if Located(fs, dir).Some? && IsEmptyDir(fs, Located(fs, dir).value) then Take(Located(fs, dir).value) else Nothing
    case Removing(folder, todo) => if IsPiece(fs, folder, todo, at) then Take(at) else Nothing
    case LastFile(folder) => if HasMarker(fs, folder) then Take(Marker(folder)) else Nothing
    case LastFolder(folder) => if IsEmptyDir(fs, folder) && folder != [] then Take(folder) else Nothing
    case MakingRoot(_, root) => if IsOnTheWay(fs, root, at) && MayAdd(fs, at) then Put(at, Dir) else Nothing
    case Trying(base, root, n) =>
      if MayAdd(fs, root + [Attempt(base, n)]) then Put(root + [Attempt(base, n)], Dir) else Nothing
    case Marking(folder) => if IsEmptyDir(fs, folder) then Put(Marker(folder), File) else Nothing
    case _ => Nothing
  }

  function Called(fs: Fs, call: Call): Fs {
    match call
    case Nothing => fs
    case Take(at) => Removed(fs, at)
    case Put(at, node) => Added(fs, at, node)
  }

  function RecordAfter(s: System, op: Op): Record {
    match op
    case Forgetting(target) => WithoutTarget(s.record, target)
    case Recording(folder) => Changed(s.record, Add(Made(folder, DeviceOf(s.fs, folder))))
    case _ => s.record
  }

  function OpAfter(s: System, op: Op, at: Names): Op {
    match op
    case Asked(dir) => if Absolute(dir).Err? then Done(false) else Looked(dir, RecordedAt(s.record.folders, dir))
    case Looked(dir, made) =>
      if IsGone(s.fs, dir, DeviceWanted(made)) then Forgetting(NamesOf(dir)) else NotGone(dir, made)
    case NotGone(dir, made) => if made.Some? && LooksEmpty(s.fs, dir) then Finishing(dir) else Checking(dir, true)
    case Finishing(dir) =>
      if CallOf(s.fs, op, at).Take? then Forgetting(NamesOf(dir)) else Done(false)
    case Checking(dir, deletes) =>
      if Absolute(dir).Ok? && Exists(s.fs, dir) then Resolving(Lookup(s.fs, dir).at, deletes) else Done(false)
    case Resolving(folder, deletes) =>
      if Records(s.record.folders, folder) then InRecord(folder, deletes) else Done(false)
    case InRecord(folder, deletes) =>
      if !SentinelSeen(s.fs, folder) then Done(false) else if deletes then Accepted(folder) else Found(folder)
    case Accepted(folder) =>
      if IsDir(s.fs, folder) then Removing(folder, ChildNames(s.fs, folder) - {SENTINEL}) else Done(false)
    case Removing(folder, todo) =>
      if todo == {} then LastFile(folder)
      else if EntryIsGone(s.fs, folder, todo, at) then Removing(folder, todo - {at[|folder|]})
      else op
    case LastFile(folder) => if CallOf(s.fs, op, at).Take? then LastFolder(folder) else Done(false)
    case LastFolder(folder) => if CallOf(s.fs, op, at).Take? then Forgetting(Some(folder)) else Done(false)
    case Forgetting(_) => Done(true)
    case Opening(path) =>
      (match OpenableIn(s.fs, s.record.folders, path) case Ok(to) => Opens(to) case Err(_) => Done(false))
    case Naming(base) =>
      (match RootInUse(s.home, s.record) case Some(raw) => Placing(base, raw) case None => Done(false))
    case Placing(base, raw) =>
      (match StagingRoot(s.fs, raw) case Ok(top) => MakingRoot(base, top.names) case Err(_) => Done(false))
    case MakingRoot(base, root) =>
      if Exists(s.fs, PathTo(root)) && IsDir(s.fs, Lookup(s.fs, PathTo(root)).at)
      then Trying(base, Lookup(s.fs, PathTo(root)).at, 1) else op
    case Trying(base, root, n) =>
      if root + [Attempt(base, n)] in s.fs.nodes then Trying(base, root, n + 1)
      else if CallOf(s.fs, op, at).Put? then Marking(root + [Attempt(base, n)])
      else Done(false)
    case Marking(folder) =>
      if IsEmptyDir(s.fs, folder) || Marked(s.fs, folder) then Recording(folder) else Done(false)
    case Recording(_) => Done(true)
    case Found(_) => op
    case Opens(_) => op
    case Done(_) => op
  }

  function Acted(s: System, i: nat, at: Names): System
    requires i < |s.ops|
  {
    var op := s.ops[i];
    s.(fs := Called(s.fs, CallOf(s.fs, op, at)), record := RecordAfter(s, op), ops := s.ops[i := OpAfter(s, op, at)])
  }

  /** The operation a turn begins, if it begins one. */
  function Begun(turn: Turn): Option<Op> {
    match turn
    case BeginDelete(dir) => Some(Asked(dir))
    case BeginFolder(dir) => Some(Checking(dir, false))
    case BeginOpen(path) => Some(Opening(path))
    case BeginCreate(what, timestamp) =>
      Some(if FolderSlug(what).Ok? then Naming(FolderName(what, timestamp)) else Done(false))
    case _ => None
  }

  function Turned(s: System, turn: Turn): System {
    if Begun(turn).Some? then s.(ops := s.ops + [Begun(turn).value])
    else
      match turn
      case Act(i, at) => if i < |s.ops| then Acted(s, i, at) else s
      case StopShort(i) => if i < |s.ops| then s.(ops := s.ops[i := Done(false)]) else s
      case ChangeRoot(root) => s.(record := Changed(s.record, SetRoot(root)))
      case Outside(fs) => s.(fs := fs)
      case _ => s
  }

  function Run(s: System, turns: seq<Turn>): System
    decreases |turns|
  {
    if turns == [] then s else Run(Turned(s, turns[0]), turns[1..])
  }

  lemma OneTurn(s: System, turn: Turn, rest: seq<Turn>)
    ensures Run(s, [turn] + rest) == Run(Turned(s, turn), rest)
    ensures rest == [] ==> Run(s, [turn]) == Turned(s, turn)
  {
    assert ([turn] + rest)[1..] == rest;
    assert rest == [] ==> [turn] + rest == [turn];
  }

  lemma {:induction false} RunOn(s: System, a: seq<Turn>, b: seq<Turn>)
    ensures Run(s, a + b) == Run(Run(s, a), b)
    decreases |a|
  {
    hide Turned;
    if a == [] {
      assert a + b == b;
    } else {
      assert (a + b)[1..] == a[1..] + b;
      RunOn(Turned(s, a[0]), a[1..], b);
    }
  }

  // ----- Every file system call ---------------------------------------------------

  lemma CallsAre(fs: Fs, op: Op, at: Names)
    requires WellFormed(fs)
    ensures CallOf(fs, op, at).Take? ==> Removable(fs, CallOf(fs, op, at).at)
    ensures CallOf(fs, op, at).Put? ==> MayAdd(fs, CallOf(fs, op, at).at)
  {
    if op.LastFile? {
      OnlyFoldersHaveChildren(fs, Marker(op.folder));
    }
    if op.Marking? {
      assert Above(Marker(op.folder)) == op.folder;
      assert op.folder < Marker(op.folder);
    }
  }

  lemma CallKeepsForm(fs: Fs, op: Op, at: Names)
    requires WellFormed(fs)
    ensures WellFormed(Called(fs, CallOf(fs, op, at)))
  {
    hide WellFormed, CallOf;
    CallsAre(fs, op, at);
    match CallOf(fs, op, at) {
      case Nothing =>
      case Take(x) => RemovalKeepsForm(fs, x);
      case Put(x, node) => AdditionKeepsForm(fs, x, node);
    }
  }

  /** Things outside stay put at and below `folder`. */
  predicate QuietAround(fs: Fs, after: Fs, folder: Names) {
    && WellFormed(after)
    && (forall at <- after.nodes :: folder <= at ==> at in fs.nodes && fs.nodes[at] == after.nodes[at])
    && (forall at <- fs.nodes :: folder <= at ==> at in after.nodes)
  }

  lemma TurnKeepsForm(s: System, turn: Turn)
    requires WellFormed(s.fs) && (turn.Outside? ==> WellFormed(turn.fs))
    ensures WellFormed(Turned(s, turn).fs)
  {
    hide WellFormed, CallOf, Called, OpAfter, RecordAfter;
    if turn.Act? && turn.op < |s.ops| {
      CallKeepsForm(s.fs, s.ops[turn.op], turn.at);
    }
  }

  // ----- A created folder stays accepted -------------------------------------------

  /** What can end a made folder's being accepted: a delete that has begun to
      take away the folder, or an entry it is in, and one that has yet to forget
      its path. */
  predicate Threatens(op: Op, folder: Names) {
    match op
    case Removing(g, todo) => g == folder || (g < folder && folder[|g|] in todo)
    case LastFile(g) => g == folder
    case Forgetting(target) => target == Some(folder)
    case _ => false
  }

  predicate NoThreat(s: System, folder: Names) {
    forall op <- s.ops :: !Threatens(op, folder)
  }

  predicate Kept(s: System, folder: Names) {
    WellFormed(s.fs) && Marked(s.fs, folder) && Records(s.record.folders, folder)
  }

  lemma ForgettingKeepsOthers(record: Record, target: Option<Names>, folder: Names)
    requires Records(record.folders, folder) && target != Some(folder)
    ensures Records(WithoutTarget(record, target).folders, folder)
  {
    if target.Some? {
      var made :| made in record.folders && made.path == folder;
      WithoutIsExact(record.folders, target.value, made);
    }
  }

  lemma AddingKeepsOthers(record: Record, made: Made, folder: Names)
    requires Records(record.folders, folder)
    ensures Records(Changed(record, Add(made)).folders, folder)
  {
    var m :| m in record.folders && m.path == folder;
    assert m in record.folders + [made];
  }

  /** Only what is at or around `folder` has it, or its sentinel, below. */
  lemma AroundIt(g: Names, folder: Names)
    ensures g < folder || g < Marker(folder) ==> g <= folder
    ensures g < folder ==> Marker(folder)[|g|] == folder[|g|]
  {
    if g < Marker(folder) {
      assert g == Marker(folder)[..|g|] == folder[..|g|];
    }
  }

  lemma MarkersDiffer(g: Names, folder: Names)
    ensures Marker(g) == Marker(folder) ==> g == folder
  {
    assert Marker(g)[..|g|] == g && Marker(folder)[..|folder|] == folder;
  }

  lemma HarmlessTake(fs: Fs, op: Op, at: Names, folder: Names)
    requires WellFormed(fs) && Marked(fs, folder) && !Threatens(op, folder) && CallOf(fs, op, at).Take?
    ensures CallOf(fs, op, at).at != folder && CallOf(fs, op, at).at != Marker(folder)
  {
    hide Located, WellFormed;
    assert folder < Marker(folder) && HasChild(fs, folder);
    match op {
      case Removing(g, todo) => AroundIt(g, folder);
      case LastFile(g) => MarkersDiffer(g, folder);
      case _ =>
    }
  }

  lemma HarmlessCall(fs: Fs, op: Op, at: Names, folder: Names)
    requires WellFormed(fs) && Marked(fs, folder) && !Threatens(op, folder)
    ensures Marked(Called(fs, CallOf(fs, op, at)), folder)
  {
    hide CallOf, WellFormed, Threatens;
    CallsAre(fs, op, at);
    if CallOf(fs, op, at).Take? {
      HarmlessTake(fs, op, at, folder);
    }
  }

  lemma HarmlessRecord(s: System, op: Op, folder: Names)
    requires Records(s.record.folders, folder) && !Threatens(op, folder)
    ensures Records(RecordAfter(s, op).folders, folder)
  {
    match op {
      case Forgetting(target) => ForgettingKeepsOthers(s.record, target, folder);
      case Recording(other) => AddingKeepsOthers(s.record, Made(other, DeviceOf(s.fs, other)), folder);
      case _ =>
    }
  }

  lemma TurnKeepsAccepted(s: System, turn: Turn, folder: Names)
    requires Kept(s, folder) && NoThreat(s, folder)
    requires turn.Outside? ==> QuietAround(s.fs, turn.fs, folder)
    ensures Kept(Turned(s, turn), folder)
  {
    hide CallOf, Called, OpAfter, RecordAfter, WellFormed;
    TurnKeepsForm(s, turn);
    match turn {
      case Act(i, at) =>
        if i < |s.ops| {
          assert s.ops[i] in s.ops;
          HarmlessCall(s.fs, s.ops[i], at, folder);
          HarmlessRecord(s, s.ops[i], folder);
        }
      case Outside(fs) => assert folder <= Marker(folder);
      case _ =>
    }
  }

  /** At no turn of the run is an operation a threat to `folder`, and nothing
      outside touches it. */
  predicate RunSpares(s: System, turns: seq<Turn>, folder: Names)
    decreases |turns|
  {
    turns != [] ==>
      && NoThreat(s, folder)
      && (turns[0].Outside? ==> QuietAround(s.fs, turns[0].fs, folder))
      && RunSpares(Turned(s, turns[0]), turns[1..], folder)
  }

  /** The folder is accepted and what is in it, with no link on the way, openable,
      however their paths are written. */
  ghost predicate Answers(s: System, folder: Names) {
    && (forall dir | NamesOf(dir) == Some(folder) :: FolderAnswer(s.fs, s.record.folders, dir) == Ok(folder))
    && (folder != [] ==> forall path | NamesOf(path).Some? && LinkFree(s.fs, folder, NamesOf(path).value) ::
          OpenableIn(s.fs, s.record.folders, path) == Ok(Plain(true, NamesOf(path).value)))
  }

  /** A folder the app made stays accepted, by every process, and what is in it
      openable, whatever the setting becomes and whatever else is made or
      deleted, until it, or an entry it is in, begins to be removed or is changed
      from outside. */
  lemma {:induction false} MadeFolderStaysAccepted(s: System, turns: seq<Turn>, folder: Names)
    requires Kept(s, folder) && RunSpares(s, turns, folder)
    ensures var u := Run(s, turns);
            Kept(u, folder) && Answers(u, folder)
    decreases |turns|
  {
    hide Turned, Kept, NoThreat, Answers;
    if turns == [] {
      KeptIsAccepted(s, folder);
    } else {
      TurnKeepsAccepted(s, turns[0], folder);
      MadeFolderStaysAccepted(Turned(s, turns[0]), turns[1..], folder);
    }
  }

  lemma KeptIsAccepted(s: System, folder: Names)
    requires Kept(s, folder)
    ensures Answers(s, folder)
  {
    hide WellFormed, FolderAnswer, OpenableIn, LinkFree, NamesOf, Walk, Lookup;
    MarkedIsAccepted(s.fs, s.record.folders, folder);
    forall dir | NamesOf(dir) == Some(folder)
      ensures FolderAnswer(s.fs, s.record.folders, dir) == Ok(folder)
    {
      NamesLead(s.fs, dir);
      LookupReal(s.fs, folder);
      AcceptedAlike(s.fs, s.record.folders, dir);
    }
    if folder != [] {
      forall path | NamesOf(path).Some? && LinkFree(s.fs, folder, NamesOf(path).value)
        ensures OpenableIn(s.fs, s.record.folders, path) == Ok(Plain(true, NamesOf(path).value))
      {
        OpensHoweverWritten(s.fs, s.record.folders, folder, path);
      }
    }
  }

  // ----- Until a delete of it begins ------------------------------------------------

  /** The turn in which a delete, accepted for `folder` or one around it, lists
      what it is going to remove. */
  predicate BeginsToRemove(s: System, turn: Turn, folder: Names) {
    turn.Act? && turn.op < |s.ops| && s.ops[turn.op].Accepted? && s.ops[turn.op].folder <= folder
  }

  predicate NoDeleteBegins(s: System, turns: seq<Turn>, folder: Names)
    decreases |turns|
  {
    turns != [] ==>
      && !BeginsToRemove(s, turns[0], folder)
      && (turns[0].Outside? ==> QuietAround(s.fs, turns[0].fs, folder))
      && NoDeleteBegins(Turned(s, turns[0]), turns[1..], folder)
  }

  /** While the folder is accepted, nothing else becomes a threat to it. */
  lemma StepBringsNoThreat(s: System, op: Op, at: Names, folder: Names)
    requires Kept(s, folder) && !Threatens(op, folder)
    requires op.Accepted? ==> !(op.folder <= folder)
    ensures !Threatens(OpAfter(s, op, at), folder)
  {
    hide WellFormed, Located, NotFound, IsGone, LooksEmpty, Lookup, Walk, ChildNames, RecordedAt, Absolute, OpenableIn,
         StagingRoot, NamesOf;
    assert folder < Marker(folder) && HasChild(s.fs, folder);
    match op {
      case Looked(dir, made) => GoneByName(s.fs, dir, DeviceWanted(made));
      case Finishing(dir) => GoneByName(s.fs, dir, None);
      case _ =>
    }
  }

  lemma TurnBringsNoThreat(s: System, turn: Turn, folder: Names)
    requires Kept(s, folder) && NoThreat(s, folder) && !BeginsToRemove(s, turn, folder)
    ensures NoThreat(Turned(s, turn), folder)
  {
    hide Kept, CallOf, Called, OpAfter, RecordAfter, FolderSlug;
    var t := Turned(s, turn);
    forall op <- t.ops ensures !Threatens(op, folder) {
      if turn.Act? && turn.op < |s.ops| {
        assert s.ops[turn.op] in s.ops;
        StepBringsNoThreat(s, s.ops[turn.op], turn.at, folder);
      }
      assert op in s.ops || !Threatens(op, folder);
    }
  }

  /** So a made folder stays accepted, and what is in it openable, as long as no
      delete begins to remove it or a folder around it. */
  lemma AcceptedUntilADeleteBegins(s: System, turns: seq<Turn>, folder: Names)
    requires Kept(s, folder) && NoThreat(s, folder) && NoDeleteBegins(s, turns, folder)
    ensures RunSpares(s, turns, folder)
    ensures Kept(Run(s, turns), folder) && Answers(Run(s, turns), folder)
  {
    NothingThreatens(s, turns, folder);
    MadeFolderStaysAccepted(s, turns, folder);
  }

  lemma {:induction false} NothingThreatens(s: System, turns: seq<Turn>, folder: Names)
    requires Kept(s, folder) && NoThreat(s, folder) && NoDeleteBegins(s, turns, folder)
    ensures RunSpares(s, turns, folder)
    decreases |turns|
  {
    hide Turned, Kept, NoThreat, BeginsToRemove;
    if turns != [] {
      TurnBringsNoThreat(s, turns[0], folder);
      TurnKeepsAccepted(s, turns[0], folder);
      NothingThreatens(Turned(s, turns[0]), turns[1..], folder);
    }
  }

  // ----- A query under way is answered ------------------------------------------------

  /** How many steps a `folder` query for `folder` still takes, as long as it goes
      well. */
  function StepsLeft(op: Op, folder: Names): Option<nat> {
    match op
    case Checking(dir, false) => if NamesOf(dir) == Some(folder) then Some(3) else None
    case Resolving(g, false) => if g == folder then Some(2) else None
    case InRecord(g, false) => if g == folder then Some(1) else None
    case Found(g) => if g == folder then Some(0) else None
    case _ => None
  }

  function ActsOf(turns: seq<Turn>, i: nat): nat {
    if turns == [] then 0
    else (if turns[0].Act? && turns[0].op == i then 1 else 0) + ActsOf(turns[1..], i)
  }

  lemma QueryGoesWell(s: System, op: Op, at: Names, folder: Names)
    requires Kept(s, folder) && StepsLeft(op, folder).Some?
    ensures var left := StepsLeft(op, folder).value;
            StepsLeft(OpAfter(s, op, at), folder) == Some(if left == 0 then 0 else left - 1)
  {
    hide Walk, WellFormed, NamesOf, Lookup;
    if op.Checking? {
      NamesLead(s.fs, op.dir);
      LookupReal(s.fs, folder);
      PathOfNames(op.dir);
    } else if op.InRecord? {
      LookupReal(s.fs, Marker(folder));
    }
  }

  lemma QueryTurn(s: System, turn: Turn, folder: Names, i: nat)
    requires Kept(s, folder) && i < |s.ops| && StepsLeft(s.ops[i], folder).Some? && turn != StopShort(i)
    ensures var left := StepsLeft(s.ops[i], folder).value; var u := Turned(s, turn);
            && i < |u.ops|
            && StepsLeft(u.ops[i], folder) ==
               Some(if turn.Act? && turn.op == i && left > 0 then left - 1 else left)
  {
    hide Kept, CallOf, Called, OpAfter, RecordAfter, FolderSlug, StepsLeft;
    if turn.Act? && turn.op == i {
      QueryGoesWell(s, s.ops[i], turn.at, folder);
    }
  }

  /** On a run that spares the folder, a `folder` query under way for it, however
      its path is written, goes on to answer it: after three of its steps it has,
      unless it is stopped. */
  lemma {:induction false} QueriesAreAnswered(s: System, turns: seq<Turn>, folder: Names, i: nat)
    requires Kept(s, folder) && RunSpares(s, turns, folder)
    requires i < |s.ops| && StepsLeft(s.ops[i], folder).Some? && StopShort(i) !in turns
    ensures var left, acts, u := StepsLeft(s.ops[i], folder).value, ActsOf(turns, i), Run(s, turns);
            && i < |u.ops|
            && StepsLeft(u.ops[i], folder) == Some(if acts >= left then 0 else left - acts)
            && (acts >= 3 ==> u.ops[i] == Found(folder))
    decreases |turns|
  {
    hide Turned, Kept, NoThreat, NamesOf;
    if turns != [] {
      assert turns[0] in turns;
      TurnKeepsAccepted(s, turns[0], folder);
      QueryTurn(s, turns[0], folder, i);
      QueriesAreAnswered(Turned(s, turns[0]), turns[1..], folder, i);
      var u := Run(s, turns);
      OnlyFoundIsDone(u.ops[i], folder);
    } else {
      OnlyFoundIsDone(s.ops[i], folder);
    }
  }

  lemma OnlyFoundIsDone(op: Op, folder: Names)
    ensures StepsLeft(op, folder) == Some(0) <==> op == Found(folder)
    ensures StepsLeft(op, folder).Some? ==> StepsLeft(op, folder).value <= 3
  {
  }

  // ----- A threat can be carried out ------------------------------------------------

  predicate Refused(s: System, folder: Names) {
    FolderAnswer(s.fs, s.record.folders, PathTo(folder)).Err?
  }

  /** Nothing but steps of operation `i`. */
  predicate OnlyActs(turns: seq<Turn>, i: nat) {
    forall turn <- turns :: turn.Act? && turn.op == i
  }

  /** Every threat is one: from any state in which the folder is accepted, steps
      of the threatening operation alone can leave it refused. */
  lemma ThreatCanBeCarriedOut(s: System, i: nat, folder: Names) returns (turns: seq<Turn>)
    requires Kept(s, folder) && i < |s.ops| && Threatens(s.ops[i], folder)
    ensures OnlyActs(turns, i) && Refused(Run(s, turns), folder)
  {
    hide WellFormed, FolderAnswer, Turned;
    match s.ops[i] {
      case Forgetting(_) =>
        turns := [Act(i, [])];
        OneTurn(s, Act(i, []), []);
        ForgottenIsRefused(s, i, folder);
      case LastFile(_) =>
        turns := [Act(i, [])];
        OneTurn(s, Act(i, []), []);
        MarkerGoes(s, i, [], folder);
      case Removing(g, todo) =>
        if g == folder {
          turns := EntriesGo(s, i, folder);
        } else {
          AroundIt(g, folder);
          turns := [Act(i, Marker(folder))];
          OneTurn(s, Act(i, Marker(folder)), []);
          MarkerIsPiece(s.fs, g, todo, folder);
          MarkerGoes(s, i, Marker(folder), folder);
        }
    }
  }

  lemma ForgottenIsRefused(s: System, i: nat, folder: Names)
    requires Kept(s, folder) && i < |s.ops| && s.ops[i] == Forgetting(Some(folder))
    ensures Refused(Turned(s, Act(i, [])), folder)
    ensures Turned(s, Act(i, [])).fs == s.fs
  {
    hide WellFormed, Lookup, Walk, Records, Without, CallOf;
    ForgottenIsNotRecorded(s.record.folders, folder);
    LookupReal(s.fs, folder);
    assert CallOf(s.fs, s.ops[i], []) == Nothing by { ForgettingCallsNothing(s.fs, s.ops[i]); }
  }

  lemma ForgettingCallsNothing(fs: Fs, op: Op)
    ensures op.Forgetting? ==> CallOf(fs, op, []) == Nothing
  {
  }

  lemma MarkerIsPiece(fs: Fs, g: Names, todo: set<string>, folder: Names)
    requires WellFormed(fs) && Marked(fs, folder) && g <= folder
    requires Marker(folder)[|g|] in todo
    ensures IsPiece(fs, g, todo, Marker(folder))
  {
    OnlyFoldersHaveChildren(fs, Marker(folder));
  }

  lemma MarkerGoes(s: System, i: nat, at: Names, folder: Names)
    requires Kept(s, folder) && i < |s.ops| && CallOf(s.fs, s.ops[i], at) == Take(Marker(folder))
    ensures Refused(Turned(s, Act(i, at)), folder)
  {
    hide CallOf, OpAfter, RecordAfter, Walk, Lookup, WellFormed;
    CallKeepsForm(s.fs, s.ops[i], at);
    var fs := Removed(s.fs, Marker(folder));
    assert fs == Turned(s, Act(i, at)).fs;
    LookupReal(fs, folder);
    NotThere(fs, folder, SENTINEL);
  }

  /** A delete that removes the folder's own entries comes to its sentinel. */
  lemma {:induction false} EntriesGo(s: System, i: nat, folder: Names) returns (turns: seq<Turn>)
    requires Kept(s, folder) && i < |s.ops| && s.ops[i].Removing? && s.ops[i].folder == folder
    ensures OnlyActs(turns, i) && Refused(Run(s, turns), folder)
    decreases s.fs.nodes.Keys, s.ops[i].todo
  {
    hide WellFormed, FolderAnswer, Turned;
    var todo := s.ops[i].todo;
    var turn: Turn;
    if todo == {} {
      turn := Act(i, []);
      NothingLeftTurn(s, i, folder);
      var t := Turned(s, turn);
      turns := [Act(i, [])];
      OneTurn(t, turns[0], []);
      MarkerGoes(t, i, [], folder);
    } else {
      var name :| name in todo;
      var top := folder + [name];
      if top !in s.fs.nodes {
        turn := Act(i, top);
        EntryGoneTurn(s, i, folder, name);
        turns := EntriesGo(Turned(s, turn), i, folder);
      } else {
        var leaf := LeafBelow(s.fs, top);
        turn := Act(i, leaf);
        LeafIsPiece(s.fs, folder, todo, name, leaf);
        if leaf == Marker(folder) {
          turns := [];
          MarkerGoes(s, i, leaf, folder);
        } else {
          LeafTurn(s, i, folder, leaf);
          turns := EntriesGo(Turned(s, turn), i, folder);
        }
      }
    }
    OneTurn(s, turn, turns);
    turns := [turn] + turns;
  }

  lemma LeafIsPiece(fs: Fs, folder: Names, todo: set<string>, name: string, leaf: Names)
    requires name in todo && leaf in fs.nodes && folder + [name] <= leaf && !HasChild(fs, leaf)
    ensures IsPiece(fs, folder, todo, leaf)
  {
    assert leaf[..|folder| + 1] == folder + [name];
    assert leaf[|folder|] == name && leaf[..|folder|] == folder;
  }

  lemma NothingLeftTurn(s: System, i: nat, folder: Names)
    requires Kept(s, folder) && i < |s.ops| && s.ops[i] == Removing(folder, {})
    ensures var t := Turned(s, Act(i, []));
            && Kept(t, folder) && i < |t.ops|
            && CallOf(t.fs, t.ops[i], []) == Take(Marker(folder))
  {
  }

  lemma EntryGoneTurn(s: System, i: nat, folder: Names, name: string)
    requires Kept(s, folder) && i < |s.ops| && s.ops[i].Removing? && s.ops[i].folder == folder
    requires name in s.ops[i].todo && folder + [name] !in s.fs.nodes
    ensures var t := Turned(s, Act(i, folder + [name]));
            && Kept(t, folder) && t.fs == s.fs && i < |t.ops|
            && t.ops[i] == Removing(folder, s.ops[i].todo - {name})
  {
    hide WellFormed, Marked, Records, Added, DeviceOf;
    GoneIsNoPiece(s.fs, s.ops[i], folder + [name]);
    assert EntryIsGone(s.fs, folder, s.ops[i].todo, folder + [name]);
  }

  lemma LeafTurn(s: System, i: nat, folder: Names, leaf: Names)
    requires Kept(s, folder) && i < |s.ops| && s.ops[i].Removing? && s.ops[i].folder == folder
    requires IsPiece(s.fs, folder, s.ops[i].todo, leaf) && leaf != Marker(folder)
    ensures var t := Turned(s, Act(i, leaf));
            && Kept(t, folder) && i < |t.ops| && t.ops[i].Removing? && t.ops[i].folder == folder
            && t.fs.nodes.Keys < s.fs.nodes.Keys
  {
    hide WellFormed;
    TurnKeepsForm(s, Act(i, leaf));
    assert leaf in s.fs.nodes.Keys && leaf !in Removed(s.fs, leaf).nodes.Keys;
  }

  // ----- A delete left alone runs through -------------------------------------------

  predicate IsGoneAndForgotten(s: System, i: nat, folder: Names) {
    i < |s.ops| && s.ops[i] == Done(true) && folder !in s.fs.nodes && !Records(s.record.folders, folder)
  }

  /** From every state in which a folder is accepted, a delete of it, however its
      path is written, can go on by its own steps until it is gone and forgotten,
      whatever else is under way. */
  lemma DeletesRunThrough(s: System, i: nat, dir: Path, folder: Names) returns (turns: seq<Turn>)
    requires Kept(s, folder) && folder != [] && NamesOf(dir) == Some(folder)
    requires i < |s.ops| && s.ops[i] == Asked(dir)
    ensures OnlyActs(turns, i) && IsGoneAndForgotten(Run(s, turns), i, folder)
  {
    hide Kept, Turned, IsGoneAndForgotten, NamesOf;
    var made := RecordedAt(s.record.folders, dir);
    var act := Act(i, []);
    DeleteIsAccepted(s, dir, folder);
    var todo := ChildNames(s.fs, folder) - {SENTINEL};
    var s1 := s.(ops := s.ops[i := Looked(dir, made)]);
    var s2 := s.(ops := s.ops[i := NotGone(dir, made)]);
    var s3 := s.(ops := s.ops[i := Checking(dir, true)]);
    var s4 := s.(ops := s.ops[i := Resolving(folder, true)]);
    var s5 := s.(ops := s.ops[i := InRecord(folder, true)]);
    var s6 := s.(ops := s.ops[i := Accepted(folder)]);
    var s7 := s.(ops := s.ops[i := Removing(folder, todo)]);
    StepsOn(s, s, i, Asked(dir));
    StepsOn(s, s1, i, Looked(dir, made));
    StepsOn(s, s2, i, NotGone(dir, made));
    StepsOn(s, s3, i, Checking(dir, true));
    StepsOn(s, s4, i, Resolving(folder, true));
    StepsOn(s, s5, i, InRecord(folder, true));
    StepsOn(s, s6, i, Accepted(folder));
    assert Kept(s7, folder) by { KeptAlike(s, s7, folder); }
    assert ChildNames(s7.fs, folder) <= todo + {SENTINEL};
    turns := AllEntriesGo(s7, i, folder);
    OneTurn(s6, act, turns);
    OneTurn(s5, act, [act] + turns);
    OneTurn(s4, act, [act] + ([act] + turns));
    OneTurn(s3, act, [act] + ([act] + ([act] + turns)));
    OneTurn(s2, act, [act] + ([act] + ([act] + ([act] + turns))));
    OneTurn(s1, act, [act] + ([act] + ([act] + ([act] + ([act] + turns)))));
    OneTurn(s, act, [act] + ([act] + ([act] + ([act] + ([act] + ([act] + turns))))));
    turns := [act] + ([act] + ([act] + ([act] + ([act] + ([act] + ([act] + turns))))));
  }

  lemma KeptAlike(s: System, t: System, folder: Names)
    requires Kept(s, folder) && t.fs == s.fs && t.record == s.record
    ensures Kept(t, folder)
  {
  }

  /** A step that changes only where its operation is. */
  lemma StepsOn(s: System, t: System, i: nat, op: Op)
    requires i < |s.ops| && t == s.(ops := s.ops[i := op])
    requires AtTheRecord(op) || op.Accepted?
    ensures Turned(t, Act(i, [])) == s.(ops := s.ops[i := OpAfter(s, op, [])])
  {
    hide OpAfter;
    OpAfterIgnoresOps(s, t, op);
  }

  lemma OpAfterIgnoresOps(s: System, t: System, op: Op)
    requires t.fs == s.fs && t.record == s.record && t.home == s.home
    ensures OpAfter(t, op, []) == OpAfter(s, op, [])
  {
    hide Located, IsGone, LooksEmpty, Lookup, Walk, OpenableIn, StagingRoot, ChildNames, SentinelSeen;
  }

  lemma DeleteIsAccepted(s: System, dir: Path, folder: Names)
    requires Kept(s, folder) && folder != [] && NamesOf(dir) == Some(folder)
    ensures var made := RecordedAt(s.record.folders, dir);
            && OpAfter(s, Asked(dir), []) == Looked(dir, made)
            && OpAfter(s, Looked(dir, made), []) == NotGone(dir, made)
            && OpAfter(s, NotGone(dir, made), []) == Checking(dir, true)
            && OpAfter(s, Checking(dir, true), []) == Resolving(folder, true)
            && OpAfter(s, Resolving(folder, true), []) == InRecord(folder, true)
            && OpAfter(s, InRecord(folder, true), []) == Accepted(folder)
            && OpAfter(s, Accepted(folder), []) == Removing(folder, ChildNames(s.fs, folder) - {SENTINEL})
  {
    hide WellFormed, Walk, ChildNames, WithoutDots;
    var made := RecordedAt(s.record.folders, dir);
    assert folder < Marker(folder) && HasChild(s.fs, folder);
    PathOfNames(dir);
    GoneByName(s.fs, dir, DeviceWanted(made));
    NamesLead(s.fs, dir);
    LookupReal(s.fs, folder);
    LookupReal(s.fs, Marker(folder));
  }

  /** Every entry goes, then the sentinel, then the folder, and it is forgotten. */
  lemma {:induction false} AllEntriesGo(s: System, i: nat, folder: Names) returns (turns: seq<Turn>)
    requires Kept(s, folder) && folder != [] && i < |s.ops| && s.ops[i].Removing? && s.ops[i].folder == folder
    requires SENTINEL !in s.ops[i].todo && ChildNames(s.fs, folder) <= s.ops[i].todo + {SENTINEL}
    ensures OnlyActs(turns, i) && IsGoneAndForgotten(Run(s, turns), i, folder)
    decreases s.fs.nodes.Keys, s.ops[i].todo
  {
    hide WellFormed, Kept, Turned, IsGoneAndForgotten, ChildNames;
    var todo := s.ops[i].todo;
    var turn: Turn;
    if todo == {} {
      turn := Act(i, []);
      ListIsDone(s, i, folder);
      turns := LastThingsGo(Turned(s, turn), i, folder);
    } else {
      var name :| name in todo;
      var top := folder + [name];
      if top !in s.fs.nodes {
        turn := Act(i, top);
        EntryGoneTurn(s, i, folder, name);
        NameIsNoChild(s.fs, folder, name);
      } else {
        var leaf := LeafBelow(s.fs, top);
        turn := Act(i, leaf);
        LeafIsPiece(s.fs, folder, todo, name, leaf);
        assert leaf != Marker(folder) by { LeafIsNoMarker(folder, name, leaf); }
        LeafTurn(s, i, folder, leaf);
        LeafTurnKeepsTheList(s, i, folder, leaf);
      }
      turns := AllEntriesGo(Turned(s, turn), i, folder);
    }
    OneTurn(s, turn, turns);
    turns := [turn] + turns;
  }

  lemma LeafIsNoMarker(folder: Names, name: string, leaf: Names)
    requires name != SENTINEL && folder + [name] <= leaf
    ensures leaf != Marker(folder)
  {
    assert leaf[|folder|] == (folder + [name])[|folder|] == name;
  }

  lemma NameIsNoChild(fs: Fs, folder: Names, name: string)
    requires folder + [name] !in fs.nodes
    ensures name !in ChildNames(fs, folder)
  {
    ChildNamesAre(fs, folder);
  }

  lemma LeafTurnKeepsTheList(s: System, i: nat, folder: Names, leaf: Names)
    requires Kept(s, folder) && i < |s.ops| && s.ops[i].Removing? && s.ops[i].folder == folder
    requires IsPiece(s.fs, folder, s.ops[i].todo, leaf)
    ensures var t := Turned(s, Act(i, leaf));
            && i < |t.ops| && t.ops[i] == s.ops[i] && ChildNames(t.fs, folder) <= ChildNames(s.fs, folder)
  {
    hide WellFormed, Marked, Records;
    ChildNamesAre(s.fs, folder);
    ChildNamesAre(Removed(s.fs, leaf), folder);
  }

  lemma ListIsDone(s: System, i: nat, folder: Names)
    requires Kept(s, folder) && i < |s.ops| && s.ops[i] == Removing(folder, {})
    ensures var t := Turned(s, Act(i, [])); Kept(t, folder) && t.fs == s.fs && i < |t.ops| && t.ops[i] == LastFile(folder)
  {
    hide WellFormed, Marked, Records;
  }

  lemma LastThingsGo(s: System, i: nat, folder: Names) returns (turns: seq<Turn>)
    requires Kept(s, folder) && folder != [] && i < |s.ops| && s.ops[i] == LastFile(folder)
    requires ChildNames(s.fs, folder) <= {SENTINEL}
    ensures OnlyActs(turns, i) && IsGoneAndForgotten(Run(s, turns), i, folder)
  {
    hide Turned;
    var act := Act(i, []);
    turns := [act, act, act];
    SentinelGoes(s, i, folder);
    var s1 := Turned(s, act);
    FolderGoes(s1, i, folder);
    var s2 := Turned(s1, act);
    PathIsForgotten(s2, i, folder);
    OneTurn(s, act, [act, act]);
    OneTurn(s1, act, [act]);
    OneTurn(s2, act, []);
    assert [act] + [act, act] == turns && [act] + [act] == [act, act];
  }

  lemma SentinelGoes(s: System, i: nat, folder: Names)
    requires Kept(s, folder) && i < |s.ops| && s.ops[i] == LastFile(folder) && ChildNames(s.fs, folder) <= {SENTINEL}
    ensures var t := Turned(s, Act(i, []));
            && i < |t.ops| && t.ops[i] == LastFolder(folder) && IsEmptyDir(t.fs, folder)
  {
    hide WellFormed, Records, HasChild, ChildNames;
    var after := Removed(s.fs, Marker(folder));
    ChildNamesAre(s.fs, folder);
    forall name ensures folder + [name] !in after.nodes {
      assert folder + [name] in s.fs.nodes ==> name in ChildNames(s.fs, folder);
    }
    NoChildLeft(after, folder);
  }

  lemma FolderGoes(s: System, i: nat, folder: Names)
    requires folder != [] && i < |s.ops| && s.ops[i] == LastFolder(folder) && IsEmptyDir(s.fs, folder)
    ensures var t := Turned(s, Act(i, []));
            && i < |t.ops| && t.ops[i] == Forgetting(Some(folder)) && folder !in t.fs.nodes
  {
    hide IsEmptyDir;
  }

  lemma PathIsForgotten(s: System, i: nat, folder: Names)
    requires i < |s.ops| && s.ops[i] == Forgetting(Some(folder)) && folder !in s.fs.nodes
    ensures IsGoneAndForgotten(Turned(s, Act(i, [])), i, folder)
  {
    hide Records, Without;
    ForgottenIsNotRecorded(s.record.folders, folder);
  }

  /** An `openable` query for what is in an accepted folder answers it. */
  lemma OpenQueriesAreAnswered(s: System, path: Path, at: Names, folder: Names)
    requires Kept(s, folder) && folder != [] && NamesOf(path).Some? && LinkFree(s.fs, folder, NamesOf(path).value)
    ensures OpAfter(s, Opening(path), at) == Opens(Plain(true, NamesOf(path).value))
  {
    hide WellFormed, OpenableIn, LinkFree, NamesOf;
    OpensHoweverWritten(s.fs, s.record.folders, folder, path);
  }

  /** A create that finds names taken goes on to the first that is not, and makes
      its folder there. */
  lemma AttemptsGoOn(s: System, i: nat, base: string, root: Names) returns (turns: seq<Turn>, n: nat)
    requires WellFormed(s.fs) && IsDir(s.fs, root) && i < |s.ops| && s.ops[i] == Trying(base, root, 1)
    ensures OnlyActs(turns, i) && n >= 1
    ensures forall m | 1 <= m < n :: root + [Attempt(base, m)] in s.fs.nodes
    ensures var folder, u := root + [Attempt(base, n)], Run(s, turns);
            && folder !in s.fs.nodes && u.fs == Added(s.fs, folder, Dir)
            && i < |u.ops| && u.ops[i] == Marking(folder)
  {
    NoneTried(s.fs, root, base);
    turns, n := AttemptsGoOnFrom(s, i, base, root, 1, {});
  }

  lemma {:induction false} AttemptsGoOnFrom(
      s: System, i: nat, base: string, root: Names, n: nat, taken: set<Names>) returns (turns: seq<Turn>, last: nat)
    requires IsDir(s.fs, root) && i < |s.ops| && n >= 1 && s.ops[i] == Trying(base, root, n)
    requires Tried(s.fs, root, base, n, taken)
    requires forall m | 1 <= m < n :: root + [Attempt(base, m)] in s.fs.nodes
    ensures OnlyActs(turns, i) && last >= 1
    ensures forall m | 1 <= m < last :: root + [Attempt(base, m)] in s.fs.nodes
    ensures var folder, u := root + [Attempt(base, last)], Run(s, turns);
            && folder !in s.fs.nodes && u.fs == Added(s.fs, folder, Dir)
            && i < |u.ops| && u.ops[i] == Marking(folder)
    decreases |s.fs.nodes.Keys| + 1 - n
  {
    hide Tried, Attempt, Turned;
    var act, folder := Act(i, []), root + [Attempt(base, n)];
    AttemptTurn(s, i, base, root, n);
    if folder in s.fs.nodes {
      OneMoreTried(s.fs, root, base, n, taken);
      turns, last := AttemptsGoOnFrom(Turned(s, act), i, base, root, n + 1, taken + {folder});
      OneTurn(s, act, turns);
      turns := [act] + turns;
    } else {
      turns, last := [act], n;
      OneTurn(s, act, []);
    }
  }

  lemma AttemptTurn(s: System, i: nat, base: string, root: Names, n: nat)
    requires IsDir(s.fs, root) && i < |s.ops| && s.ops[i] == Trying(base, root, n)
    ensures var folder, t := root + [Attempt(base, n)], Turned(s, Act(i, []));
            && i < |t.ops|
            && (if folder in s.fs.nodes then t.fs == s.fs && t.ops[i] == Trying(base, root, n + 1)
                else t.fs == Added(s.fs, folder, Dir) && t.ops[i] == Marking(folder))
  {
    hide Attempt, Added;
    assert Above(root + [Attempt(base, n)]) == root;
  }

  // ----- A folder made anew -----------------------------------------------------------

  /** One such threat outlives the folder: a delete that has removed a folder and
      has yet to forget it forgets the path, and with it the folder that another
      process makes and records there in between. It stands on disk, marked, and
      is refused. */
  lemma ForgettingDropsAFolderMadeAnew(s: System, i: nat, what: string, timestamp: string, folder: Names)
      returns (made: seq<Turn>)
    requires WellFormed(s.fs) && MayAdd(s.fs, folder)
    requires i < |s.ops| && s.ops[i] == Forgetting(Some(folder))
    requires FolderSlug(what).Ok? && folder[|folder| - 1] == FolderName(what, timestamp)
    requires var root := RootInUse(s.home, s.record);
             root.Some? && StagingRoot(s.fs, root.value) == Ok(Plain(true, Above(folder)))
    ensures var u := Run(s, made);
            Kept(u, folder) && u.ops == s.ops + [Done(true)] && Answers(u, folder)
    ensures var end := Run(s, made + [Act(i, [])]);
            Marked(end.fs, folder) && Refused(end, folder)
  {
    hide WellFormed, FolderAnswer, Turned;
    var j := |s.ops|;
    var base := FolderName(what, timestamp);
    var act := Act(j, []);
    made := [BeginCreate(what, timestamp), act, act, act, act, act, act];
    CreateReadsTheSetting(s, what, timestamp, folder);
    CreateMakesTheFolder(s, base, folder);
    var u := CreatedAnew(s, folder);
    ManyTurns(s, made[0], act);
    RunOn(s, made, [Act(i, [])]);
    OneTurn(u, Act(i, []), []);
    KeptIsAccepted(u, folder);
    ForgottenIsRefused(u, i, folder);
  }

  lemma ManyTurns(s: System, begin: Turn, act: Turn)
    ensures var t := Turned(Turned(Turned(Turned(s, begin), act), act), act);
            Run(s, [begin, act, act, act, act, act, act]) == Turned(Turned(Turned(t, act), act), act)
  {
    hide Turned;
    var s1 := Turned(s, begin);
    var s2 := Turned(s1, act);
    var s3 := Turned(s2, act);
    var s4 := Turned(s3, act);
    var s5 := Turned(s4, act);
    var s6 := Turned(s5, act);
    assert [begin, act, act, act, act, act, act] == [begin] + [act, act, act, act, act, act];
    OneTurn(s, begin, [act, act, act, act, act, act]);
    assert [act, act, act, act, act, act] == [act] + [act, act, act, act, act];
    OneTurn(s1, act, [act, act, act, act, act]);
    assert [act, act, act, act, act] == [act] + [act, act, act, act];
    OneTurn(s2, act, [act, act, act, act]);
    assert [act, act, act, act] == [act] + [act, act, act];
    OneTurn(s3, act, [act, act, act]);
    assert [act, act, act] == [act] + [act, act];
    OneTurn(s4, act, [act, act]);
    assert [act, act] == [act] + [act];
    OneTurn(s5, act, [act]);
    OneTurn(s6, act, []);
  }

  /** A step of the newest operation. */
  lemma NewestActs(s: System, ops: seq<Op>, op: Op)
    requires s.ops == ops + [op]
    ensures Turned(s, Act(|ops|, [])) ==
            System(Called(s.fs, CallOf(s.fs, op, [])), RecordAfter(s, op), s.home, ops + [OpAfter(s, op, [])])
  {
    hide CallOf, Called, RecordAfter, OpAfter;
    assert s.ops[|ops| := OpAfter(s, op, [])] == ops + [OpAfter(s, op, [])];
  }

  /** What the first steps of a create do by themselves. */
  lemma FirstSteps(s: System, base: string, raw: Path, root: Names)
    requires RootInUse(s.home, s.record) == Some(raw) && StagingRoot(s.fs, raw) == Ok(Plain(true, root))
    ensures OpAfter(s, Naming(base), []) == Placing(base, raw)
    ensures OpAfter(s, Placing(base, raw), []) == MakingRoot(base, root)
    ensures Called(s.fs, CallOf(s.fs, Naming(base), [])) == s.fs && RecordAfter(s, Naming(base)) == s.record
    ensures Called(s.fs, CallOf(s.fs, Placing(base, raw), [])) == s.fs && RecordAfter(s, Placing(base, raw)) == s.record
  {
    hide RootInUse, StagingRoot;
  }

  lemma RootIsFound(s: System, base: string, root: Names)
    requires WellFormed(s.fs) && IsDir(s.fs, root)
    ensures OpAfter(s, MakingRoot(base, root), []) == Trying(base, root, 1)
    ensures Called(s.fs, CallOf(s.fs, MakingRoot(base, root), [])) == s.fs
    ensures RecordAfter(s, MakingRoot(base, root)) == s.record
  {
    LookupReal(s.fs, root);
    hide WellFormed, Lookup, LeadsTo;
  }

  /** The first steps of a create: the setting is read and resolved, and its
      folder is there. */
  lemma CreateReadsTheSetting(s: System, what: string, timestamp: string, folder: Names)
    requires WellFormed(s.fs) && MayAdd(s.fs, folder) && FolderSlug(what).Ok?
    requires var root := RootInUse(s.home, s.record);
             root.Some? && StagingRoot(s.fs, root.value) == Ok(Plain(true, Above(folder)))
    ensures var act := Act(|s.ops|, []);
            Turned(Turned(Turned(Turned(s, BeginCreate(what, timestamp)), act), act), act) ==
            s.(ops := s.ops + [Trying(FolderName(what, timestamp), Above(folder), 1)])
  {
    var base, raw := FolderName(what, timestamp), RootInUse(s.home, s.record).value;
    var s1 := s.(ops := s.ops + [Naming(base)]);
    var s2 := s.(ops := s.ops + [Placing(base, raw)]);
    var s3 := s.(ops := s.ops + [MakingRoot(base, Above(folder))]);
    assert Turned(s, BeginCreate(what, timestamp)) == s1;
    hide WellFormed, StagingRoot, RootInUse, FolderName, Turned, OpAfter, CallOf, Called, RecordAfter;
    FirstSteps(s1, base, raw, Above(folder));
    FirstSteps(s2, base, raw, Above(folder));
    RootIsFound(s3, base, Above(folder));
    NewestActs(s1, s.ops, Naming(base));
    NewestActs(s2, s.ops, Placing(base, raw));
    NewestActs(s3, s.ops, MakingRoot(base, Above(folder)));
  }

  /** The system with `folder` made, marked and recorded by one more operation. */
  function CreatedAnew(s: System, folder: Names): System {
    var marked := Added(Added(s.fs, folder, Dir), Marker(folder), File);
    s.(fs := marked, record := Changed(s.record, Add(Made(folder, DeviceOf(marked, folder)))), ops := s.ops + [Done(true)])
  }

  lemma CreateMakesTheFolder(s: System, base: string, folder: Names)
    requires WellFormed(s.fs) && MayAdd(s.fs, folder) && folder[|folder| - 1] == base
    ensures var s4 := s.(ops := s.ops + [Trying(base, Above(folder), 1)]);
            var act := Act(|s.ops|, []);
            Turned(Turned(Turned(s4, act), act), act) == CreatedAnew(s, folder)
    ensures Kept(CreatedAnew(s, folder), folder)
  {
    hide WellFormed, IsEmptyDir, Turned, Added, DeviceOf, Records;
    var made, marked := Added(s.fs, folder, Dir), Added(Added(s.fs, folder, Dir), Marker(folder), File);
    MadeAndMarked(s.fs, folder);
    var s4 := s.(ops := s.ops + [Trying(base, Above(folder), 1)]);
    var s5 := s.(fs := made, ops := s.ops + [Marking(folder)]);
    var s6 := s.(fs := marked, ops := s.ops + [Recording(folder)]);
    assert Above(folder) + [Attempt(base, 1)] == folder;
    NewestActs(s4, s.ops, Trying(base, Above(folder), 1));
    NewestActs(s5, s.ops, Marking(folder));
    NewestActs(s6, s.ops, Recording(folder));
    AddedIsRecorded(s.record, Made(folder, DeviceOf(marked, folder)));
  }

  lemma MadeAndMarked(fs: Fs, folder: Names)
    requires WellFormed(fs) && MayAdd(fs, folder)
    ensures var made := Added(fs, folder, Dir);
            var marked := Added(made, Marker(folder), File);
            && IsEmptyDir(made, folder)
            && WellFormed(marked) && Marked(marked, folder)
  {
    var made := Added(fs, folder, Dir);
    AdditionKeepsForm(fs, folder, Dir);
    NothingInNothing(fs, folder);
    forall name ensures folder + [name] !in made.nodes {
      assert folder + [name] != folder;
    }
    NoChildLeft(made, folder);
    assert Above(Marker(folder)) == folder;
    AdditionKeepsForm(made, Marker(folder), File);
  }

  // ----- A delete can always be finished ---------------------------------------------

  /** What an operation that is deleting `folder` itself has left of it. */
  predicate Progress(fs: Fs, op: Op, folder: Names) {
    match op
    case Removing(g, todo) =>
      SENTINEL !in todo && (g == folder ==> ChildNames(fs, folder) <= todo + {SENTINEL})
    case LastFile(g) => g == folder ==> ChildNames(fs, folder) <= {SENTINEL}
    case _ => true
  }

  /** No part of `root` is to be made at or in `folder`. */
  predicate RootMadeAside(fs: Fs, root: Names, folder: Names) {
    forall k | 0 <= k < |root| && Exists(fs, PathTo(root[..k])) ::
      var x := Lookup(fs, PathTo(root[..k])).at + [root[k]];
      MayAdd(fs, x) ==> !(folder <= x)
  }

  lemma MadeAside(fs: Fs, root: Names, at: Names, folder: Names)
    requires RootMadeAside(fs, root, folder) && IsOnTheWay(fs, root, at) && MayAdd(fs, at)
    ensures !(folder <= at)
  {
    hide Exists, Lookup;
    var k :| 0 <= k < |root| && LeadsTo(fs, root, k, Above(at)) && at[|at| - 1] == root[k];
    assert Above(at) + [root[k]] == at;
    assert LeadsTo(fs, root, k, Above(at));
  }

  /** The operation removes no folder around `folder`, and is about to make and
      record nothing at or in it but a sentinel. One that finds the name taken
      goes on to the next. */
  predicate StaysClear(fs: Fs, op: Op, folder: Names) {
    match op
    case Finishing(dir) => Located(fs, dir).Some? ==> !(Located(fs, dir).value < folder)
    case Removing(g, _) => !(g < folder)
    case LastFile(g) => !(g < folder)
    case LastFolder(g) => !(g < folder)
    case MakingRoot(_, root) => RootMadeAside(fs, root, folder)
    case Trying(base, root, n) =>
      MayAdd(fs, root + [Attempt(base, n)]) ==> !(folder <= root + [Attempt(base, n)])
    case Marking(g) => !(folder < g) && Marker(g) != folder
    case Recording(g) => g != folder
    case _ => true
  }

  predicate TakenUp(s: System, folder: Names) {
    && WellFormed(s.fs)
    && Recoverable(s.fs, folder)
    && (forall op <- s.ops :: Progress(s.fs, op, folder))
  }

  /** A call that leaves `folder` recoverable, with no more in it but perhaps
      the sentinel. */
  predicate LeavesLess(fs: Fs, after: Fs, folder: Names) {
    Recoverable(after, folder) && ChildNames(after, folder) <= ChildNames(fs, folder) + {SENTINEL}
  }

  lemma TakeLeavesLess(fs: Fs, x: Names, folder: Names)
    requires WellFormed(fs) && Recoverable(fs, folder) && Removable(fs, x)
    requires x == Marker(folder) ==> ChildNames(fs, folder) <= {SENTINEL} || !Marked(fs, folder)
    ensures LeavesLess(fs, Removed(fs, x), folder)
  {
    var after := Removed(fs, x);
    ChildNamesAre(fs, folder);
    ChildNamesAre(after, folder);
    assert ChildNames(after, folder) <= ChildNames(fs, folder);
    if folder in after.nodes {
      if Marked(fs, folder) && x == Marker(folder) {
        assert SENTINEL !in ChildNames(after, folder);
      }
    }
  }

  lemma PutLeavesLess(fs: Fs, x: Names, node: Node, folder: Names)
    requires WellFormed(fs) && Recoverable(fs, folder) && MayAdd(fs, x)
    requires folder <= x ==> x == Marker(folder) && node == File
    ensures LeavesLess(fs, Added(fs, x, node), folder)
  {
    var after := Added(fs, x, node);
    ChildNamesAre(fs, folder);
    ChildNamesAre(after, folder);
    if folder < x {
      assert Above(x) == folder;
    } else {
      forall name ensures folder + [name] in after.nodes <==> folder + [name] in fs.nodes {
        assert folder < folder + [name];
      }
    }
  }

  lemma ActLeavesLess(s: System, i: nat, at: Names, folder: Names)
    requires TakenUp(s, folder) && i < |s.ops| && StaysClear(s.fs, s.ops[i], folder)
    ensures LeavesLess(s.fs, Called(s.fs, CallOf(s.fs, s.ops[i], at)), folder)
  {
    hide CallOf, WellFormed, Recoverable, StaysClear, Progress, ChildNames;
    var op := s.ops[i];
    assert Progress(s.fs, op, folder) by { assert op in s.ops; }
    CallsAre(s.fs, op, at);
    match CallOf(s.fs, op, at) {
      case Nothing =>
      case Take(x) =>
        if x == Marker(folder) && Marked(s.fs, folder) {
          TodoHasNoMarker(s.fs, op, folder);
          TakesMarkerLast(s.fs, op, at, folder);
        }
        TakeLeavesLess(s.fs, x, folder);
      case Put(x, node) =>
        PutsOnlyMarker(s.fs, op, at, folder);
        PutLeavesLess(s.fs, x, node, folder);
    }
  }

  /** The sentinel goes last: nothing else takes it, and what does has seen
      everything else go. */
  lemma TakesMarkerLast(fs: Fs, op: Op, at: Names, folder: Names)
    requires WellFormed(fs) && Progress(fs, op, folder) && StaysClear(fs, op, folder)
    requires CallOf(fs, op, at) == Take(Marker(folder)) && Marked(fs, folder)
    requires op.Removing? ==> SENTINEL !in op.todo
    ensures ChildNames(fs, folder) <= {SENTINEL}
  {
    hide Located, WellFormed, ChildNames;
    match op {
      case Removing(g, todo) => AroundIt(g, folder);
      case LastFile(g) => MarkersDiffer(g, folder);
      case _ =>
    }
  }

  lemma TodoHasNoMarker(fs: Fs, op: Op, folder: Names)
    requires Progress(fs, op, folder)
    ensures op.Removing? ==> SENTINEL !in op.todo
  {
  }

  lemma PutsOnlyMarker(fs: Fs, op: Op, at: Names, folder: Names)
    requires StaysClear(fs, op, folder) && CallOf(fs, op, at).Put?
    ensures var Put(x, node) := CallOf(fs, op, at); folder <= x ==> x == Marker(folder) && node == File
  {
    hide Located, IsOnTheWay, RootMadeAside, MayAdd;
    if op.Marking? {
      AroundIt(folder, op.folder);
      MarkersDiffer(op.folder, folder);
    } else if op.MakingRoot? {
      MadeAside(fs, op.root, at, folder);
    }
  }

  lemma OtherOpsKeepProgress(fs: Fs, after: Fs, op: Op, folder: Names)
    requires Progress(fs, op, folder) && ChildNames(after, folder) <= ChildNames(fs, folder) + {SENTINEL}
    ensures Progress(after, op, folder)
  {
  }

  lemma OwnProgress(s: System, op: Op, at: Names, folder: Names)
    requires WellFormed(s.fs) && Progress(s.fs, op, folder)
    requires var after := Called(s.fs, CallOf(s.fs, op, at));
             ChildNames(after, folder) <= ChildNames(s.fs, folder) + {SENTINEL}
    ensures Progress(Called(s.fs, CallOf(s.fs, op, at)), OpAfter(s, op, at), folder)
  {
    hide WellFormed, CallOf, OpAfter, Called, Progress, ChildNames;
    match op {
      case Removing(g, todo) => RemovingProgress(s, op, at, folder);
      case Accepted(g) => AcceptedProgress(s, op, at, folder);
      case _ =>
        BeginsNoRemoval(s, op, at);
        NewOpProgress(Called(s.fs, CallOf(s.fs, op, at)), OpAfter(s, op, at), folder);
    }
  }

  lemma BeginsNoRemoval(s: System, op: Op, at: Names)
    requires !op.Removing? && !op.Accepted?
    ensures var next := OpAfter(s, op, at); next == op || (!next.Removing? && !next.LastFile?)
    ensures op.LastFile? ==> !OpAfter(s, op, at).LastFile?
  {
  }

  lemma AcceptedProgress(s: System, op: Op, at: Names, folder: Names)
    requires op.Accepted?
    ensures Progress(Called(s.fs, CallOf(s.fs, op, at)), OpAfter(s, op, at), folder)
  {
    hide ChildNames;
  }

  lemma RemovingProgress(s: System, op: Op, at: Names, folder: Names)
    requires op.Removing? && Progress(s.fs, op, folder)
    requires var after := Called(s.fs, CallOf(s.fs, op, at));
             ChildNames(after, folder) <= ChildNames(s.fs, folder) + {SENTINEL}
    ensures Progress(Called(s.fs, CallOf(s.fs, op, at)), OpAfter(s, op, at), folder)
  {
    hide Called, CallOf, ChildNames;
    ChildNamesAre(s.fs, folder);
    if op.todo != {} && EntryIsGone(s.fs, op.folder, op.todo, at) && op.folder == folder {
      assert at == folder + [at[|folder|]];
      assert Called(s.fs, CallOf(s.fs, op, at)) == s.fs by { GoneIsNoPiece(s.fs, op, at); }
    }
  }

  lemma GoneIsNoPiece(fs: Fs, op: Op, at: Names)
    requires op.Removing? && at !in fs.nodes
    ensures Called(fs, CallOf(fs, op, at)) == fs
  {
  }

  /** Nobody writes in `folder` from outside or moves the folder it is in, and
      every operation stays clear of it. */
  predicate ClearTurn(s: System, turn: Turn, folder: Names) {
    && (forall op <- s.ops :: StaysClear(s.fs, op, folder))
    && (turn.Outside? ==>
          && QuietAround(s.fs, turn.fs, folder)
          && IsDir(turn.fs, Above(folder))
          && DeviceOf(turn.fs, Above(folder)) == DeviceOf(s.fs, Above(folder)))
  }

  predicate RunClear(s: System, turns: seq<Turn>, folder: Names)
    decreases |turns|
  {
    turns != [] ==> ClearTurn(s, turns[0], folder) && RunClear(Turned(s, turns[0]), turns[1..], folder)
  }

  lemma TurnKeepsTakenUp(s: System, turn: Turn, folder: Names)
    requires TakenUp(s, folder) && ClearTurn(s, turn, folder)
    ensures TakenUp(Turned(s, turn), folder)
  {
    hide CallOf, Called, OpAfter, RecordAfter, Progress, StaysClear, ChildNames, Recoverable, WellFormed, FolderSlug;
    TurnKeepsForm(s, turn);
    var t := Turned(s, turn);
    match turn {
      case Act(i, at) =>
        if i < |s.ops| {
          assert s.ops[i] in s.ops;
          ActLeavesLess(s, i, at, folder);
          OwnProgress(s, s.ops[i], at, folder);
          forall op <- t.ops ensures Progress(t.fs, op, folder) {
            if op in s.ops {
              OtherOpsKeepProgress(s.fs, t.fs, op, folder);
            }
          }
        }
      case Outside(fs) =>
        QuietLeavesSame(s.fs, fs, folder);
        forall op <- t.ops ensures Progress(t.fs, op, folder) {
          OtherOpsKeepProgress(s.fs, t.fs, op, folder);
        }
      case StopShort(i) => NewOpProgress(t.fs, Done(false), folder);
      case ChangeRoot(_) =>
      case _ => NewOpProgress(t.fs, Begun(turn).value, folder);
    }
  }

  lemma NewOpProgress(fs: Fs, op: Op, folder: Names)
    requires !op.Removing? && !op.LastFile?
    ensures Progress(fs, op, folder)
  {
  }

  lemma QuietLeavesSame(fs: Fs, after: Fs, folder: Names)
    requires QuietAround(fs, after, folder) && Recoverable(fs, folder)
    ensures Recoverable(after, folder) && ChildNames(after, folder) <= ChildNames(fs, folder)
  {
    ChildNamesAre(fs, folder);
    ChildNamesAre(after, folder);
    forall name ensures folder + [name] in after.nodes <==> folder + [name] in fs.nodes {
      assert folder <= folder + [name];
    }
    assert folder <= Marker(folder);
  }

  /** While `folder` is there it is recorded as `made`, in a folder that stays
      where it is; who is about to forget it has seen it go. */
  predicate Listed(s: System, folder: Names, made: Made) {
    && folder != [] && IsDir(s.fs, Above(folder))
    && (made.device.Some? ==> DeviceOf(s.fs, Above(folder)) == made.device)
    && (Recorded(s.record.folders, folder) == Some(made)
        || (Recorded(s.record.folders, folder) == None && folder !in s.fs.nodes))
    && (forall op <- s.ops :: op == Forgetting(Some(folder)) ==> folder !in s.fs.nodes)
  }

  lemma {:induction false} RecordedAppend(folders: seq<Made>, made: Made, path: Names)
    ensures Recorded(folders + [made], path) ==
            if Recorded(folders, path).Some? || made.path != path then Recorded(folders, path) else Some(made)
    decreases |folders|
  {
    if folders != [] {
      assert (folders + [made])[1..] == folders[1..] + [made];
      RecordedAppend(folders[1..], made, path);
    }
  }

  lemma {:induction false} RecordedWithout(folders: seq<Made>, gone: Names, path: Names)
    ensures Recorded(Without(folders, gone), path) == if gone == path then None else Recorded(folders, path)
    decreases |folders|
  {
    if folders != [] {
      var last := |folders| - 1;
      assert folders == folders[..last] + [folders[last]];
      RecordedWithout(folders[..last], gone, path);
      RecordedAppend(folders[..last], folders[last], path);
      RecordedAppend(Without(folders[..last], gone), folders[last], path);
      assert Without(folders[..last], gone) + [] == Without(folders[..last], gone);
    }
  }

  lemma RecordStaysListed(s: System, op: Op, folder: Names)
    requires op != Recording(folder)
    ensures Recorded(RecordAfter(s, op).folders, folder) ==
            if op == Forgetting(Some(folder)) then None else Recorded(s.record.folders, folder)
  {
    hide Recorded, Without;
    match op {
      case Forgetting(target) =>
        if target.Some? {
          RecordedWithout(s.record.folders, target.value, folder);
        }
      case Recording(g) => RecordedAppend(s.record.folders, Made(g, DeviceOf(s.fs, g)), folder);
      case _ =>
    }
  }

  /** A call leaves the folder that `folder` is in, and puts nothing at `folder`. */
  lemma CallLeavesAbove(fs: Fs, op: Op, at: Names, folder: Names)
    requires WellFormed(fs) && StaysClear(fs, op, folder) && folder != [] && IsDir(fs, Above(folder))
    ensures var after := Called(fs, CallOf(fs, op, at));
            && IsDir(after, Above(folder)) && DeviceOf(after, Above(folder)) == DeviceOf(fs, Above(folder))
            && (folder in after.nodes ==> folder in fs.nodes)
  {
    hide WellFormed, CallOf, StaysClear;
    CallsAre(fs, op, at);
    match CallOf(fs, op, at) {
      case Nothing =>
      case Take(_) => TakesNothingAbove(fs, op, at, folder);
      case Put(x, node) =>
        PutsOnlyMarker(fs, op, at, folder);
        assert folder <= folder && folder != Marker(folder);
        PutBeside(fs, x, node, folder);
    }
  }

  lemma PutBeside(fs: Fs, x: Names, node: Node, folder: Names)
    requires x !in fs.nodes && x != folder && IsDir(fs, Above(folder))
    ensures var after := Added(fs, x, node);
            && IsDir(after, Above(folder)) && DeviceOf(after, Above(folder)) == DeviceOf(fs, Above(folder))
            && (folder in after.nodes ==> folder in fs.nodes)
  {
  }

  lemma TakesNothingAbove(fs: Fs, op: Op, at: Names, folder: Names)
    requires StaysClear(fs, op, folder) && folder != [] && IsDir(fs, Above(folder)) && CallOf(fs, op, at).Take?
    ensures CallOf(fs, op, at).at != Above(folder)
  {
    hide Located;
    assert Above(folder) < folder;
  }

  /** Who comes to forget `folder` has just seen it go. */
  lemma ForgetsWhatIsGone(s: System, op: Op, at: Names, folder: Names)
    requires WellFormed(s.fs) && folder != [] && (folder in s.fs.nodes ==> !s.fs.nodes[folder].Link?)
    requires op != Forgetting(Some(folder)) && OpAfter(s, op, at) == Forgetting(Some(folder))
    ensures folder !in Called(s.fs, CallOf(s.fs, op, at)).nodes
  {
    hide WellFormed, Located, IsGone, LooksEmpty, Lookup, Walk, ChildNames, RecordedAt, Absolute, OpenableIn, StagingRoot;
    match op {
      case Looked(dir, made) => GoneByName(s.fs, dir, DeviceWanted(made));
      case Finishing(dir) => GoneByName(s.fs, dir, None);
      case _ =>
    }
  }

  lemma TurnKeepsListed(s: System, turn: Turn, folder: Names, made: Made)
    requires WellFormed(s.fs) && Recoverable(s.fs, folder) && Listed(s, folder, made) && ClearTurn(s, turn, folder)
    ensures Listed(Turned(s, turn), folder, made)
  {
    hide CallOf, Called, OpAfter, RecordAfter, StaysClear, WellFormed, Recorded, FolderSlug;
    match turn {
      case Act(i, at) =>
        if i < |s.ops| {
          var op := s.ops[i];
          assert op in s.ops;
          CallLeavesAbove(s.fs, op, at, folder);
          ClearOfRecording(s.fs, op, folder);
          RecordStaysListed(s, op, folder);
          var t := Turned(s, turn);
          forall other <- t.ops | other == Forgetting(Some(folder)) ensures folder !in t.fs.nodes {
            if other !in s.ops {
              ForgetsWhatIsGone(s, op, at, folder);
            }
          }
        }
      case Outside(fs) => assert folder in fs.nodes ==> folder in s.fs.nodes by { assert folder <= folder; }
      case StopShort(_) =>
        forall op <- Turned(s, turn).ops | op == Forgetting(Some(folder)) ensures folder !in s.fs.nodes {
          assert op in s.ops;
        }
      case ChangeRoot(_) =>
      case _ => assert !Begun(turn).value.Forgetting?;
    }
  }

  lemma ClearOfRecording(fs: Fs, op: Op, folder: Names)
    requires StaysClear(fs, op, folder)
    ensures op != Recording(folder)
  {
  }

  lemma ListedIsFinishable(s: System, folder: Names, made: Made)
    requires Recoverable(s.fs, folder) && Listed(s, folder, made)
    ensures folder in s.fs.nodes ==> Records(s.record.folders, folder)
    ensures Records(s.record.folders, folder) ==> Finishable(s.fs, Holds(s.record), PathTo(folder))
  {
    hide Recoverable, Recorded;
    RecordedFinds(s.record.folders, folder);
    NamesOfPathTo(folder);
  }

  /** However many processes delete `folder` at once, and wherever each of them
      stops, it still holds its sentinel, or is empty, or is gone; and while it
      is recorded, as it is while it is there, a delete can finish it. */
  lemma {:induction false} DeletesLeaveItFinishable(s: System, turns: seq<Turn>, folder: Names, made: Made)
    requires TakenUp(s, folder) && Listed(s, folder, made) && RunClear(s, turns, folder)
    ensures var u := Run(s, turns);
            && WellFormed(u.fs)
            && Recoverable(u.fs, folder)
            && (folder in u.fs.nodes ==> Records(u.record.folders, folder))
            && (Records(u.record.folders, folder) ==> Finishable(u.fs, Holds(u.record), PathTo(folder)))
    decreases |turns|
  {
    hide Turned, ClearTurn, Listed, Recoverable, Progress, Finishable, Records;
    if turns != [] {
      TurnKeepsTakenUp(s, turns[0], folder);
      TurnKeepsListed(s, turns[0], folder, made);
      DeletesLeaveItFinishable(Turned(s, turns[0]), turns[1..], folder, made);
    } else {
      ListedIsFinishable(s, folder, made);
    }
  }

  /** No delete has its sentinel among what goes first. */
  predicate SentinelsLast(s: System) {
    forall op <- s.ops :: op.Removing? ==> SENTINEL !in op.todo
  }

  lemma SentinelsStayLast(s: System, turn: Turn)
    requires SentinelsLast(s)
    ensures SentinelsLast(Turned(s, turn))
  {
    hide CallOf, Called, OpAfter, RecordAfter, FolderSlug;
    var t := Turned(s, turn);
    forall op <- t.ops | op.Removing? ensures SENTINEL !in op.todo {
      if turn.Act? && turn.op < |s.ops| {
        assert s.ops[turn.op] in s.ops;
        ListsNoSentinel(s, s.ops[turn.op], turn.at);
      }
      assert op in s.ops || SENTINEL !in op.todo;
    }
  }

  lemma ListsNoSentinel(s: System, op: Op, at: Names)
    requires op.Removing? ==> SENTINEL !in op.todo
    ensures OpAfter(s, op, at).Removing? ==> SENTINEL !in OpAfter(s, op, at).todo
  {
    hide ChildNames;
  }

  /** So it is on every run from one with no delete under way. */
  lemma {:induction false} SentinelsAreLast(s: System, turns: seq<Turn>)
    requires SentinelsLast(s)
    ensures SentinelsLast(Run(s, turns))
    decreases |turns|
  {
    hide SentinelsLast, Turned;
    if turns != [] {
      SentinelsStayLast(s, turns[0]);
      SentinelsAreLast(Turned(s, turns[0]), turns[1..]);
    }
  }

  /** A folder just made, whose path was not recorded and that no delete has yet
      to forget, is one that deletes leave finishable. */
  lemma MadeFolderIsFinishable(s: System, folder: Names)
    requires WellFormed(s.fs) && MayAdd(s.fs, folder) && SentinelsLast(s)
    requires Recorded(s.record.folders, folder) == None && Forgetting(Some(folder)) !in s.ops
    ensures var t := CreatedAnew(s, folder);
            TakenUp(t, folder) && Listed(t, folder, Made(folder, DeviceOf(t.fs, folder)))
  {
    hide WellFormed, HasChild, ChildNames, Recorded;
    var t, made := CreatedAnew(s, folder), Added(s.fs, folder, Dir);
    var mine := Made(folder, DeviceOf(t.fs, folder));
    MadeAndMarked(s.fs, folder);
    RecordedAppend(s.record.folders, mine, folder);
    ChildNamesAre(t.fs, folder);
    NothingInNothing(s.fs, folder);
    assert Marker(folder) != folder && |Above(folder)| < |folder|;
    forall name <- ChildNames(t.fs, folder) ensures name == SENTINEL {
      assert folder + [name] in t.fs.nodes && folder + [name] != folder;
      assert folder + [name] == Marker(folder);
      assert (folder + [name])[|folder|] == Marker(folder)[|folder|];
    }
    forall op <- t.ops ensures Progress(t.fs, op, folder) {
      assert op in s.ops || op == Done(true);
    }
  }

  // ----- Nothing is removed that was not checked ------------------------------------

  /** A step takes away nothing but an empty folder a delete was asked for, what
      is in the folder it removes, its sentinel, or it. */
  lemma TakesAreInside(fs: Fs, op: Op, at: Names)
    requires CallOf(fs, op, at).Take?
    ensures var x := CallOf(fs, op, at).at;
            match op
            case Finishing(dir) => Located(fs, dir) == Some(x) && IsEmptyDir(fs, x)
            case Removing(g, todo) => g < x && x[|g|] in todo
            case LastFile(g) => x == g + [SENTINEL]
            case LastFolder(g) => x == g && IsEmptyDir(fs, g)
            case _ => false
  {
  }

  /** The folder a delete has passed every check for. */
  function Checked(op: Op): Option<Names> {
    match op
    case Accepted(g) => Some(g)
    case Removing(g, _) => Some(g)
    case LastFile(g) => Some(g)
    case LastFolder(g) => Some(g)
    case _ => None
  }

  /** What the checks passed so far have seen, at some point of the run. */
  predicate SawRecorded(s: System, turns: seq<Turn>, folder: Names) {
    exists k | 0 <= k <= |turns| :: Records(Run(s, turns[..k]).record.folders, folder)
  }

  predicate SawSentinel(s: System, turns: seq<Turn>, folder: Names) {
    exists k | 0 <= k <= |turns| :: SentinelSeen(Run(s, turns[..k]).fs, folder)
  }

  predicate SawEmpty(s: System, turns: seq<Turn>, dir: Path) {
    && (exists k | 0 <= k <= |turns| :: RecordedAt(Run(s, turns[..k]).record.folders, dir).Some?)
    && (exists k | 0 <= k <= |turns| :: LooksEmpty(Run(s, turns[..k]).fs, dir))
  }

  predicate SawWhatItNeeds(s: System, turns: seq<Turn>, op: Op) {
    match op
    case InRecord(g, _) => SawRecorded(s, turns, g)
    case Looked(dir, made) =>
      made.Some? ==> exists k | 0 <= k <= |turns| :: RecordedAt(Run(s, turns[..k]).record.folders, dir).Some?
    case NotGone(dir, made) =>
      made.Some? ==> exists k | 0 <= k <= |turns| :: RecordedAt(Run(s, turns[..k]).record.folders, dir).Some?
    case Finishing(dir) => SawEmpty(s, turns, dir)
    case _ => Checked(op).Some? ==>
                SawRecorded(s, turns, Checked(op).value) && SawSentinel(s, turns, Checked(op).value)
  }

  lemma SawMore(s: System, turns: seq<Turn>, turn: Turn, op: Op)
    requires SawWhatItNeeds(s, turns, op)
    ensures SawWhatItNeeds(s, turns + [turn], op)
  {
    hide Run, Records, SentinelSeen, RecordedAt, LooksEmpty;
    var more := turns + [turn];
    forall k | 0 <= k <= |turns| ensures more[..k] == turns[..k] {
    }
  }

  lemma SawNow(s: System, turns: seq<Turn>, turn: Turn, i: nat, op: Op, at: Names)
    requires SawWhatItNeeds(s, turns, op) && i < |Run(s, turns).ops| && Run(s, turns).ops[i] == op
    ensures SawWhatItNeeds(s, turns + [turn], OpAfter(Run(s, turns), op, at))
  {
    hide Run, Records, SentinelSeen, RecordedAt, LooksEmpty, IsGone, Lookup, Walk, ChildNames, OpenableIn, StagingRoot,
         Located, Absolute;
    var more := turns + [turn];
    SawMore(s, turns, turn, op);
    assert more[..|turns|] == turns;
  }

  /** On every run from one with no operation under way, what a delete removes was
      recorded, and held its sentinel, or was recorded and empty, when it looked. */
  lemma {:induction false} RemovalsWereChecked(s: System, turns: seq<Turn>, i: nat)
    requires s.ops == [] && i < |Run(s, turns).ops|
    ensures SawWhatItNeeds(s, turns, Run(s, turns).ops[i])
    decreases |turns|
  {
    hide SawWhatItNeeds, CallOf, Called, RecordAfter, OpAfter, FolderSlug;
    if turns != [] {
      var before, turn := turns[..|turns| - 1], turns[|turns| - 1];
      assert turns == before + [turn];
      RunOn(s, before, [turn]);
      var u := Run(s, before);
      OneTurn(u, turn, []);
      if i < |u.ops| {
        RemovalsWereChecked(s, before, i);
        if turn.Act? && turn.op == i {
          SawNow(s, before, turn, i, u.ops[i], turn.at);
        } else if turn == StopShort(i) {
          NothingToSee(s, turns, Done(false));
        } else {
          SawMore(s, before, turn, u.ops[i]);
        }
      } else {
        NothingToSee(s, turns, Begun(turn).value);
      }
    }
  }

  lemma NothingToSee(s: System, turns: seq<Turn>, op: Op)
    requires op.Asked? || op.Checking? || op.Opening? || op.Naming? || op.Done?
    ensures SawWhatItNeeds(s, turns, op)
  {
  }

  // ----- The setting plays no part ------------------------------------------------

  /** At, above or below `folder`. */
  predicate OnLine(at: Names, folder: Names) {
    at <= folder || folder <= at
  }

  predicate SameLine(a: Fs, b: Fs, folder: Names) {
    && DeviceOf(a, Above(folder)) == DeviceOf(b, Above(folder))
    && (forall at <- a.nodes :: OnLine(at, folder) ==> at in b.nodes && b.nodes[at] == a.nodes[at])
    && (forall at <- b.nodes :: OnLine(at, folder) ==> at in a.nodes)
  }

  /** `folder` is a folder, if it is there, in one that is, and its sentinel no
      link. */
  predicate LineForm(fs: Fs, folder: Names) {
    && WellFormed(fs) && folder != [] && IsDir(fs, Above(folder))
    && (folder in fs.nodes ==> IsDir(fs, folder))
    && (Marker(folder) in fs.nodes ==> !fs.nodes[Marker(folder)].Link?)
  }

  /** A delete of `folder`, a query for it or for what is in it, or what became
      of one. */
  predicate About(op: Op, folder: Names) {
    match op
    case Asked(dir) => NamesOf(dir) == Some(folder)
    case Looked(dir, _) => NamesOf(dir) == Some(folder)
    case NotGone(dir, _) => NamesOf(dir) == Some(folder)
    case Finishing(dir) => NamesOf(dir) == Some(folder)
    case Checking(dir, _) => NamesOf(dir) == Some(folder)
    case Resolving(g, _) => g == folder
    case InRecord(g, _) => g == folder
    case Accepted(g) => g == folder
    case Removing(g, _) => g == folder
    case LastFile(g) => g == folder
    case LastFolder(g) => g == folder
    case Found(g) => g == folder
    case Forgetting(target) => target == Some(folder)
    case Opening(path) => NamesOf(path).Some? && folder <= NamesOf(path).value
    case Opens(_) => true
    case Done(_) => true
    case _ => false
  }

  /** Two systems in which the operations numbered `mine` are about `folder` and
      at the same point, and `folder` stands the same. Their settings, and what
      other folders were made and recorded under them, may differ. */
  predicate SameFor(s: System, t: System, mine: set<nat>, folder: Names) {
    && LineForm(s.fs, folder) && LineForm(t.fs, folder) && SameLine(s.fs, t.fs, folder)
    && Recorded(s.record.folders, folder) == Recorded(t.record.folders, folder)
    && |s.ops| == |t.ops|
    && (forall i <- mine :: i < |s.ops| ==> s.ops[i] == t.ops[i] && About(s.ops[i], folder))
  }

  /** A path in `folder` is asked for while that is accepted, with no link on the
      way. */
  predicate Answerable(fs: Fs, folders: seq<Made>, op: Op, folder: Names) {
    op.Opening? ==>
      && Marked(fs, folder) && Records(folders, folder)
      && NamesOf(op.path).Some? && LinkFree(fs, folder, NamesOf(op.path).value)
  }

  predicate CallAside(call: Call, folder: Names) {
    match call
    case Nothing => true
    case Take(x) => !OnLine(x, folder)
    case Put(x, _) => !OnLine(x, folder)
  }

  /** A turn of another operation, of the setting or from outside, that changes
      nothing at, above or below `folder` and does not record or forget it. */
  predicate Elsewhere(s: System, turn: Turn, mine: set<nat>, folder: Names) {
    match turn
    case Act(i, at) =>
      i !in mine
      && (i < |s.ops| ==>
            && CallAside(CallOf(s.fs, s.ops[i], at), folder)
            && s.ops[i] != Forgetting(Some(folder)) && s.ops[i] != Recording(folder))
    case StopShort(i) => i !in mine
    case ChangeRoot(_) => true
    case Outside(fs) => LineForm(fs, folder) && SameLine(s.fs, fs, folder)
    case _ => false
  }

  predicate BeginPair(s: System, a: Turn, b: Turn, mine: set<nat>, folder: Names) {
    && Begun(a).Some? && Begun(b).Some?
    && (|s.ops| in mine ==> a == b && About(Begun(a).value, folder))
  }

  predicate OwnTurn(s: System, t: System, turn: Turn, mine: set<nat>, folder: Names) {
    match turn
    case Act(i, _) =>
      i in mine
      && (i < |s.ops| && i < |t.ops| ==>
            && Answerable(s.fs, s.record.folders, s.ops[i], folder)
            && Answerable(t.fs, t.record.folders, t.ops[i], folder))
    case StopShort(i) => i in mine
    case _ => false
  }

  /** One turn of each run: the same step of an operation about `folder`, or any
      two turns that leave `folder` alone. */
  predicate Paired(s: System, t: System, a: Turn, b: Turn, mine: set<nat>, folder: Names) {
    || BeginPair(s, a, b, mine, folder)
    || (a == b && OwnTurn(s, t, a, mine, folder))
    || (Elsewhere(s, a, mine, folder) && Elsewhere(t, b, mine, folder))
  }

  predicate RunsPaired(s: System, t: System, a: seq<Turn>, b: seq<Turn>, mine: set<nat>, folder: Names)
    requires |a| == |b|
    decreases |a|
  {
    a != [] ==>
      && Paired(s, t, a[0], b[0], mine, folder)
      && RunsPaired(Turned(s, a[0]), Turned(t, b[0]), a[1..], b[1..], mine, folder)
  }

  /** What lookups along the line of a folder come to, however its path is
      written. */
  lemma LineAnswers(fs: Fs, folder: Names, dir: Path, device: Option<nat>)
    requires LineForm(fs, folder) && NamesOf(dir) == Some(folder)
    ensures Located(fs, dir) == if EndsInName(dir) then Some(folder) else None
    ensures Exists(fs, dir) <==> folder in fs.nodes
    ensures Exists(fs, dir) ==> Lookup(fs, dir).at == folder
    ensures IsGone(fs, dir, device) <==>
            folder !in fs.nodes && (device.Some? ==> DeviceOf(fs, Above(folder)) == device)
    ensures LooksEmpty(fs, dir) <==> IsEmptyDir(fs, folder)
    ensures SentinelSeen(fs, folder) <==> Marker(folder) in fs.nodes && fs.nodes[Marker(folder)].File?
  {
    hide Walk, WellFormed, WithoutDots;
    NamesLead(fs, dir);
    NamesThereOrNot(fs, folder);
    GoneInAFolder(fs, dir, device);
    SentinelByName(fs, folder);
    if EndsInName(dir) {
      NameIsLocated(fs, dir);
    }
  }

  lemma SentinelByName(fs: Fs, folder: Names)
    requires LineForm(fs, folder)
    ensures SentinelSeen(fs, folder) <==> Marker(folder) in fs.nodes && fs.nodes[Marker(folder)].File?
  {
    hide Walk;
    assert Above(Marker(folder)) == folder && Above(folder) + [folder[|folder| - 1]] == folder;
    if Marker(folder) in fs.nodes {
      LookupReal(fs, Marker(folder));
    } else if folder in fs.nodes {
      NotThere(fs, folder, SENTINEL);
    } else {
      NotThere(fs, Above(folder), folder[|folder| - 1]);
      var p := Plain(true, Marker(folder));
      assert Upto(p, |folder|) == Plain(true, folder) && Upto(p, |folder| + 1) == p;
      NothingUnderMissing(fs, p, |folder|, |folder| + 1);
    }
  }

  /** What is at or below `folder` is the same, and so is what is in it. */
  lemma SameBelow(a: Fs, b: Fs, folder: Names, x: Names)
    requires SameLine(a, b, folder) && folder <= x
    ensures x in a.nodes <==> x in b.nodes
    ensures x in a.nodes ==> a.nodes[x] == b.nodes[x]
    ensures HasChild(a, x) <==> HasChild(b, x)
    ensures IsEmptyDir(a, x) <==> IsEmptyDir(b, x)
    ensures ChildNames(a, x) == ChildNames(b, x)
  {
    assert OnLine(x, folder);
    ChildNamesAre(a, x);
    ChildNamesAre(b, x);
    forall name ensures x + [name] in a.nodes <==> x + [name] in b.nodes {
      assert OnLine(x + [name], folder);
    }
    assert ChildNames(a, x) == ChildNames(b, x);
  }

  predicate AtTheRecord(op: Op) {
    op.Asked? || op.Looked? || op.NotGone? || op.Checking? || op.Resolving? || op.InRecord?
  }

  lemma LookupsAgree(a: Fs, b: Fs, folder: Names, dir: Path, device: Option<nat>)
    requires LineForm(a, folder) && LineForm(b, folder) && SameLine(a, b, folder) && NamesOf(dir) == Some(folder)
    ensures Exists(a, dir) <==> Exists(b, dir)
    ensures Exists(a, dir) ==> Lookup(a, dir).at == folder
    ensures Exists(b, dir) ==> Lookup(b, dir).at == folder
    ensures IsGone(a, dir, device) <==> IsGone(b, dir, device)
    ensures LooksEmpty(a, dir) <==> LooksEmpty(b, dir)
    ensures SentinelSeen(a, folder) <==> SentinelSeen(b, folder)
  {
    hide Located, IsGone, LooksEmpty, SentinelSeen, IsEmptyDir, Exists, Lookup, NamesOf, LineForm, SameLine;
    LineAnswers(a, folder, dir, device);
    LineAnswers(b, folder, dir, device);
    SameBelow(a, b, folder, folder);
    assert folder <= Marker(folder);
    SameBelow(a, b, folder, Marker(folder));
    SameAbove(a, b, folder);
  }

  /** The path of an operation about `folder`, as it was written if it still is. */
  function PathOf(op: Op, folder: Names): Path {
    match op
    case Asked(dir) => dir
    case Looked(dir, _) => dir
    case NotGone(dir, _) => dir
    case Finishing(dir) => dir
    case Checking(dir, _) => dir
    case _ => PathTo(folder)
  }

  lemma PathOfIsNamed(op: Op, folder: Names)
    requires About(op, folder)
    ensures NamesOf(PathOf(op, folder)) == Some(folder)
  {
    hide NamesOf;
    NamesOfPathTo(folder);
  }

  /** The checks of a delete and of `folder` go the same way in both. */
  lemma ChecksAgree(s: System, t: System, op: Op, at: Names, folder: Names)
    requires LineForm(s.fs, folder) && LineForm(t.fs, folder) && SameLine(s.fs, t.fs, folder)
    requires Recorded(s.record.folders, folder) == Recorded(t.record.folders, folder)
    requires About(op, folder) && AtTheRecord(op)
    ensures CallOf(s.fs, op, at) == CallOf(t.fs, op, at) == Nothing
    ensures OpAfter(s, op, at) == OpAfter(t, op, at) && About(OpAfter(s, op, at), folder)
  {
    hide Located, IsGone, LooksEmpty, SentinelSeen, IsEmptyDir, WellFormed, Lookup, Walk, Recorded, Records,
         ChildNames, NamesOf, LineForm, SameLine, Absolute;
    PathOfIsNamed(op, folder);
    LookupsAgree(s.fs, t.fs, folder, PathOf(op, folder), if op.Looked? then DeviceWanted(op.made) else None);
    RecordedFinds(s.record.folders, folder);
    RecordedFinds(t.record.folders, folder);
  }

  lemma SameAbove(a: Fs, b: Fs, folder: Names)
    requires SameLine(a, b, folder)
    ensures DeviceOf(a, Above(folder)) == DeviceOf(b, Above(folder))
  {
  }

  predicate TakesAway(op: Op) {
    op.Finishing? || op.Accepted? || op.Removing? || op.LastFile? || op.LastFolder? || op.Forgetting?
  }

  lemma PiecesAgree(a: Fs, b: Fs, todo: set<string>, at: Names, folder: Names, dir: Path)
    requires LineForm(a, folder) && LineForm(b, folder) && SameLine(a, b, folder) && NamesOf(dir) == Some(folder)
    ensures Located(a, dir) == Located(b, dir) && Located(a, dir) in {None, Some(folder)}
    ensures IsDir(a, folder) <==> IsDir(b, folder)
    ensures IsEmptyDir(a, folder) <==> IsEmptyDir(b, folder)
    ensures HasMarker(a, folder) <==> HasMarker(b, folder)
    ensures ChildNames(a, folder) == ChildNames(b, folder)
    ensures IsPiece(a, folder, todo, at) <==> IsPiece(b, folder, todo, at)
    ensures EntryIsGone(a, folder, todo, at) <==> EntryIsGone(b, folder, todo, at)
    ensures folder <= Marker(folder)
  {
    hide Located, IsGone, LooksEmpty, SentinelSeen, IsEmptyDir, Exists, Lookup, HasChild, ChildNames, NamesOf,
         LineForm, SameLine;
    LineAnswers(a, folder, dir, None);
    LineAnswers(b, folder, dir, None);
    SameBelow(a, b, folder, folder);
    SameBelow(a, b, folder, Marker(folder));
    if folder <= at {
      SameBelow(a, b, folder, at);
    }
  }

  /** So does what they take away. */
  lemma RemovalsAgree(s: System, t: System, op: Op, at: Names, folder: Names)
    requires LineForm(s.fs, folder) && LineForm(t.fs, folder) && SameLine(s.fs, t.fs, folder)
    requires About(op, folder) && TakesAway(op)
    ensures CallOf(s.fs, op, at) == CallOf(t.fs, op, at)
    ensures OpAfter(s, op, at) == OpAfter(t, op, at) && About(OpAfter(s, op, at), folder)
    ensures !CallOf(s.fs, op, at).Put?
    ensures CallOf(s.fs, op, at).Take? ==> folder <= CallOf(s.fs, op, at).at
  {
    hide CallOf, OpAfter, IsDir, ChildNames, EntryIsGone, IsPiece, LineForm, SameLine;
    RemovalCallsAgree(s, t, op, at, folder);
    PathOfIsNamed(op, folder);
    PiecesAgree(s.fs, t.fs, if op.Removing? then op.todo else {}, at, folder, PathOf(op, folder));
    if op.Removing? {
      StillRemoving(s, t, op, at, folder);
    } else if op.Accepted? {
      ListedTheSame(s, t, op, at, folder);
    } else {
      StepsByTheCall(s, t, op, at, folder);
    }
  }

  lemma ListedTheSame(s: System, t: System, op: Op, at: Names, folder: Names)
    requires op == Accepted(folder)
    requires (IsDir(s.fs, folder) <==> IsDir(t.fs, folder)) && ChildNames(s.fs, folder) == ChildNames(t.fs, folder)
    ensures OpAfter(s, op, at) == OpAfter(t, op, at) && About(OpAfter(s, op, at), folder)
  {
    hide IsDir, ChildNames;
  }

  lemma StepsByTheCall(s: System, t: System, op: Op, at: Names, folder: Names)
    requires op.Finishing? || op.LastFile? || op.LastFolder? || op.Forgetting?
    requires About(op, folder) && CallOf(s.fs, op, at) == CallOf(t.fs, op, at)
    ensures OpAfter(s, op, at) == OpAfter(t, op, at) && About(OpAfter(s, op, at), folder)
  {
    hide CallOf, NamesOf;
  }

  lemma StillRemoving(s: System, t: System, op: Op, at: Names, folder: Names)
    requires op.Removing? && op.folder == folder
    requires EntryIsGone(s.fs, folder, op.todo, at) <==> EntryIsGone(t.fs, folder, op.todo, at)
    ensures OpAfter(s, op, at) == OpAfter(t, op, at) && About(OpAfter(s, op, at), folder)
  {
  }

  lemma RemovalCallsAgree(s: System, t: System, op: Op, at: Names, folder: Names)
    requires LineForm(s.fs, folder) && LineForm(t.fs, folder) && SameLine(s.fs, t.fs, folder)
    requires About(op, folder) && TakesAway(op)
    ensures CallOf(s.fs, op, at) == CallOf(t.fs, op, at)
    ensures !CallOf(s.fs, op, at).Put?
    ensures CallOf(s.fs, op, at).Take? ==> folder <= CallOf(s.fs, op, at).at
  {
    hide Located, IsEmptyDir, HasMarker, ChildNames, NamesOf, EntryIsGone, IsPiece, LineForm, SameLine, PathTo;
    var todo := if op.Removing? then op.todo else {};
    PathOfIsNamed(op, folder);
    PiecesAgree(s.fs, t.fs, todo, at, folder, PathOf(op, folder));
    PieceIsBelow(s.fs, folder, todo, at);
  }

  lemma PieceIsBelow(fs: Fs, folder: Names, todo: set<string>, at: Names)
    ensures IsPiece(fs, folder, todo, at) ==> folder <= at
  {
  }

  lemma QueriesAgree(s: System, t: System, op: Op, at: Names, folder: Names)
    requires LineForm(s.fs, folder) && LineForm(t.fs, folder)
    requires op.Opening? || op.Found? || op.Opens? || op.Done?
    requires Answerable(s.fs, s.record.folders, op, folder) && Answerable(t.fs, t.record.folders, op, folder)
    requires About(op, folder)
    ensures CallOf(s.fs, op, at) == CallOf(t.fs, op, at) == Nothing
    ensures OpAfter(s, op, at) == OpAfter(t, op, at) && About(OpAfter(s, op, at), folder)
  {
    hide WellFormed, OpenableIn, Records;
    if op.Opening? {
      OpensHoweverWritten(s.fs, s.record.folders, folder, op.path);
      OpensHoweverWritten(t.fs, t.record.folders, folder, op.path);
    }
  }

  lemma OwnOpAgrees(s: System, t: System, op: Op, at: Names, folder: Names)
    requires LineForm(s.fs, folder) && LineForm(t.fs, folder) && SameLine(s.fs, t.fs, folder)
    requires Recorded(s.record.folders, folder) == Recorded(t.record.folders, folder)
    requires Answerable(s.fs, s.record.folders, op, folder) && Answerable(t.fs, t.record.folders, op, folder)
    requires About(op, folder)
    ensures CallOf(s.fs, op, at) == CallOf(t.fs, op, at)
    ensures OpAfter(s, op, at) == OpAfter(t, op, at) && About(OpAfter(s, op, at), folder)
    ensures !CallOf(s.fs, op, at).Put?
    ensures CallOf(s.fs, op, at).Take? ==> folder <= CallOf(s.fs, op, at).at
    ensures op != Recording(folder)
  {
    hide CallOf, OpAfter, LineForm, SameLine, Answerable, Recorded;
    if AtTheRecord(op) {
      ChecksAgree(s, t, op, at, folder);
    } else if TakesAway(op) {
      RemovalsAgree(s, t, op, at, folder);
    } else {
      QueriesAgree(s, t, op, at, folder);
    }
  }

  lemma SameCallSameLine(a: Fs, b: Fs, op: Op, at: Names, folder: Names)
    requires LineForm(a, folder) && LineForm(b, folder) && SameLine(a, b, folder)
    requires CallOf(a, op, at) == CallOf(b, op, at)
    requires !CallOf(a, op, at).Put? && (CallOf(a, op, at).Take? ==> folder <= CallOf(a, op, at).at)
    ensures var call := CallOf(a, op, at);
            LineForm(Called(a, call), folder) && LineForm(Called(b, call), folder)
            && SameLine(Called(a, call), Called(b, call), folder)
  {
    hide CallOf, WellFormed;
    CallKeepsForm(a, op, at);
    CallKeepsForm(b, op, at);
    assert |Above(folder)| < |folder|;
  }

  lemma CallElsewhere(fs: Fs, op: Op, at: Names, folder: Names)
    requires LineForm(fs, folder) && CallAside(CallOf(fs, op, at), folder)
    ensures var after := Called(fs, CallOf(fs, op, at)); LineForm(after, folder) && SameLine(fs, after, folder)
  {
    hide CallOf, WellFormed;
    CallKeepsForm(fs, op, at);
    assert OnLine(Above(folder), folder) && OnLine(folder, folder) && OnLine(Marker(folder), folder);
  }

  /** One side of a pair of turns that leave `folder` alone. */
  lemma ElsewhereLeaves(s: System, turn: Turn, mine: set<nat>, folder: Names)
    requires LineForm(s.fs, folder) && Elsewhere(s, turn, mine, folder)
    ensures var u := Turned(s, turn);
            && LineForm(u.fs, folder) && SameLine(s.fs, u.fs, folder)
            && Recorded(u.record.folders, folder) == Recorded(s.record.folders, folder)
            && |u.ops| == |s.ops| && (forall i <- mine :: i < |s.ops| ==> u.ops[i] == s.ops[i])
  {
    hide CallOf, Called, OpAfter, RecordAfter, LineForm, Recorded;
    match turn {
      case Act(i, at) =>
        if i < |s.ops| {
          CallElsewhere(s.fs, s.ops[i], at, folder);
          RecordStaysListed(s, s.ops[i], folder);
        }
      case _ =>
    }
  }

  lemma SameLineTwice(a: Fs, b: Fs, c: Fs, folder: Names)
    requires SameLine(a, b, folder) && SameLine(b, c, folder)
    ensures SameLine(a, c, folder) && SameLine(c, a, folder)
  {
  }

  lemma OwnTurnAgrees(s: System, t: System, turn: Turn, mine: set<nat>, folder: Names)
    requires SameFor(s, t, mine, folder) && OwnTurn(s, t, turn, mine, folder)
    ensures SameFor(Turned(s, turn), Turned(t, turn), mine, folder)
  {
    hide CallOf, Called, OpAfter, RecordAfter, LineForm, SameLine, Recorded, Answerable, About;
    match turn {
      case Act(i, at) =>
        if i < |s.ops| {
          var op := s.ops[i];
          OwnOpAgrees(s, t, op, at, folder);
          SameCallSameLine(s.fs, t.fs, op, at, folder);
          RecordStaysListed(s, op, folder);
          RecordStaysListed(t, op, folder);
        }
      case StopShort(_) => DoneIsAbout(folder);
    }
  }

  lemma DoneIsAbout(folder: Names)
    ensures About(Done(false), folder)
  {
  }

  lemma PairedTurnsAgree(s: System, t: System, a: Turn, b: Turn, mine: set<nat>, folder: Names)
    requires SameFor(s, t, mine, folder) && Paired(s, t, a, b, mine, folder)
    ensures SameFor(Turned(s, a), Turned(t, b), mine, folder)
  {
    hide LineForm, SameLine, Recorded, About, Elsewhere, OwnTurn, Begun;
    if BeginPair(s, a, b, mine, folder) {
    } else if a == b && OwnTurn(s, t, a, mine, folder) {
      OwnTurnAgrees(s, t, a, mine, folder);
    } else {
      hide Turned;
      var u, v := Turned(s, a), Turned(t, b);
      ElsewhereLeaves(s, a, mine, folder);
      ElsewhereLeaves(t, b, mine, folder);
      SameLineTwice(s.fs, t.fs, v.fs, folder);
      SameLineTwice(v.fs, s.fs, u.fs, folder);
    }
  }

  /** Two runs whose settings differ, before and during them, so that their
      creates, which go by the setting, make other folders in other places: every
      delete of `folder` and every query for it and what is in it takes the same
      steps and gets the same answer in both, `folder` stands and is recorded the
      same in both, and `folder` answers the same. */
  lemma {:induction false} SettingPlaysNoPart(
      s: System, t: System, a: seq<Turn>, b: seq<Turn>, mine: set<nat>, folder: Names)
    requires SameFor(s, t, mine, folder) && |a| == |b| && RunsPaired(s, t, a, b, mine, folder)
    ensures var u, v := Run(s, a), Run(t, b);
            && SameFor(u, v, mine, folder)
            && FolderAnswer(u.fs, u.record.folders, PathTo(folder)) == FolderAnswer(v.fs, v.record.folders, PathTo(folder))
    decreases |a|
  {
    hide Turned, SameFor, Paired, FolderAnswer;
    if a != [] {
      PairedTurnsAgree(s, t, a[0], b[0], mine, folder);
      SettingPlaysNoPart(Turned(s, a[0]), Turned(t, b[0]), a[1..], b[1..], mine, folder);
    } else {
      AnswersAgree(s, t, mine, folder);
    }
  }

  lemma AnswersAgree(s: System, t: System, mine: set<nat>, folder: Names)
    requires SameFor(s, t, mine, folder)
    ensures FolderAnswer(s.fs, s.record.folders, PathTo(folder)) == FolderAnswer(t.fs, t.record.folders, PathTo(folder))
  {
    hide Walk, Lookup, WellFormed, LineForm, SameLine, Recorded, Records, IsGone, LooksEmpty, Located, NamesOf;
    NamesOfPathTo(folder);
    LineAnswers(s.fs, folder, PathTo(folder), None);
    LineAnswers(t.fs, folder, PathTo(folder), None);
    SameBelow(s.fs, t.fs, folder, folder);
    assert folder <= Marker(folder);
    SameBelow(s.fs, t.fs, folder, Marker(folder));
    RecordedFinds(s.record.folders, folder);
    RecordedFinds(t.record.folders, folder);
  }

  /** A create that goes on beside `folder`: neither the Staging Directory it has
      found nor what it has made is in it. */
  predicate CreateAside(op: Op, folder: Names) {
    match op
    case Naming(_) => true
    case Placing(_, _) => true
    case MakingRoot(_, _) => true
    case Trying(_, root, _) => !(folder <= root)
    case Marking(g) => !OnLine(g, folder)
    case Recording(g) => !OnLine(g, folder)
    case Done(_) => true
    case _ => false
  }

  /** The Staging Directory, as far as it is there, does not lead to `folder` or
      into it, and what is missing of it is not to be made there. */
  predicate RootAside(fs: Fs, root: Names, folder: Names) {
    RootMadeAside(fs, root, folder)
    && (Exists(fs, PathTo(root)) ==> !(folder <= Lookup(fs, PathTo(root)).at))
  }

  /** While `folder` is there, every step of such a create is a turn that leaves
      it alone, to the end, wherever its Staging Directory is but in `folder`. */
  lemma CreatesAreAside(s: System, op: Op, at: Names, folder: Names)
    requires WellFormed(s.fs) && folder in s.fs.nodes && CreateAside(op, folder)
    requires op.MakingRoot? ==> RootAside(s.fs, op.root, folder)
    ensures CallAside(CallOf(s.fs, op, at), folder)
    ensures op != Forgetting(Some(folder)) && op != Recording(folder)
    ensures CreateAside(OpAfter(s, op, at), folder)
  {
    hide WellFormed, StagingRoot, RootMadeAside, IsOnTheWay, Lookup;
    if op.MakingRoot? || op.Trying? {
      PutsAside(s.fs, op, at, folder);
    } else if op.Marking? {
      MarkerIsAside(op.folder, folder);
    }
  }

  lemma MarkerIsAside(g: Names, folder: Names)
    requires !OnLine(g, folder)
    ensures !OnLine(Marker(g), folder)
  {
    assert Marker(g)[..|g|] == g;
  }

  /** What a create puts anywhere was not there, and so is not around `folder`. */
  lemma PutsAside(fs: Fs, op: Op, at: Names, folder: Names)
    requires WellFormed(fs) && folder in fs.nodes
    requires op.MakingRoot? || op.Trying?
    requires if op.MakingRoot? then RootMadeAside(fs, op.root, folder) else !(folder <= op.root)
    ensures CallAside(CallOf(fs, op, at), folder)
  {
    hide WellFormed, RootMadeAside, IsOnTheWay;
    CallsAre(fs, op, at);
    if CallOf(fs, op, at).Put? {
      var x := CallOf(fs, op, at).at;
      assert !(x <= folder) by {
        assert folder[..|folder|] == folder;
        assert x <= folder ==> x == folder[..|x|];
        if |x| < |folder| {
          FoldersAbove(fs, folder, |x|);
        }
      }
      assert !(folder <= x) by {
        if op.MakingRoot? {
          MadeAside(fs, op.root, at, folder);
        } else {
          assert x[..|x| - 1] == op.root;
        }
      }
    }
  }
}
