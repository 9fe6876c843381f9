/** The staging folders of `src-tauri/src/staging_folders.rs`: making them,
    accepting them, and deleting them so that a delete cut short can be
    finished. */
module Staging {
  import opened Text
  import opened FileSystem
  import opened Paths
  import opened Record

  const SENTINEL := ".message-crate-export"

  const DEFAULT_ROOT_NAME := "message-crate"

  function Marker(folder: Names): Names {
    folder + [SENTINEL]
  }

  /** The folder holds the sentinel itself, as a file. */
  predicate Marked(fs: Fs, folder: Names) {
    IsDir(fs, folder) && Marker(folder) in fs.nodes && fs.nodes[Marker(folder)].File?
  }

  /** Something called like the sentinel is in the folder. */
  predicate HasMarker(fs: Fs, folder: Names) {
    IsDir(fs, folder) && Marker(folder) in fs.nodes && !fs.nodes[Marker(folder)].Dir?
  }

  /** What a delete leaves for a later one to finish. */
  predicate Recoverable(fs: Fs, folder: Names) {
    folder !in fs.nodes || Marked(fs, folder) || IsEmptyDir(fs, folder)
  }

  predicate Records(folders: seq<Made>, path: Names) {
    exists made <- folders :: made.path == path
  }

  function Recorded(folders: seq<Made>, path: Names): Option<Made> {
    if folders == [] then None
    else if folders[0].path == path then Some(folders[0])
    else Recorded(folders[1..], path)
  }

  lemma {:induction false} RecordedFinds(folders: seq<Made>, path: Names)
    ensures Recorded(folders, path).Some? <==> Records(folders, path)
    ensures Recorded(folders, path).Some? ==>
              Recorded(folders, path).value in folders && Recorded(folders, path).value.path == path
    decreases |folders|
  {
    if folders != [] {
      RecordedFinds(folders[1..], path);
      assert forall made :: made in folders <==> made == folders[0] || made in folders[1..];
    }
  }

  /** `symlink_metadata` finds nothing: a last name is not followed, but what a
      last `.` is in, is. */
  predicate NotFound(fs: Fs, path: Path) {
    if EndsInName(path) then
      var above := Lookup(fs, Parent(path));
      || above == Missing
      || (above.Reached? && IsDir(fs, above.at) && above.at + [path.parts[|path.parts| - 1].name] !in fs.nodes)
    else Lookup(fs, path) == Missing
  }

  /** `is_gone`: nothing is there, not even a link, in a folder that is still
      on the device the folder was made on. */
  predicate IsGone(fs: Fs, path: Path, device: Option<nat>) {
    && NotFound(fs, path)
    && Components(path).parts != []
    && var above := Lookup(fs, Parent(Components(path)));
       && above.Reached? && IsDir(fs, above.at)
       && (device.Some? ==> DeviceOf(fs, above.at) == device)
  }

  /** `is_empty_dir`, through links as `read_dir` goes. */
  predicate LooksEmpty(fs: Fs, path: Path) {
    Lookup(fs, path).Reached? && IsEmptyDir(fs, Lookup(fs, path).at)
  }

  /** `StagingFolders::folder`. */
  function FolderAnswer(fs: Fs, folders: seq<Made>, dir: Path): Result<Names> {
    match Absolute(dir)
    case Err(e) => Err(e)
    case Ok(path) =>
      if !Exists(fs, path) then Err("could not find it")
      else
        var folder := Lookup(fs, path).at;
        if !Records(folders, folder) then Err("not one Message Crate made")
        else
          var marker := Lookup(fs, PathTo(Marker(folder)));
          if marker.Reached? && marker.at in fs.nodes && fs.nodes[marker.at].File? then Ok(folder)
          else Err("no sentinel")
  }

  /** `StagingFolders::openable`: inside the first made folder that has it. */
  function OpenableIn(fs: Fs, folders: seq<Made>, path: Path): Result<Plain> {
    if folders == [] then Err("in no staging folder")
    else
      var here := Openable(fs, path, PathTo(folders[0].path));
      if here.Ok? then here else OpenableIn(fs, folders[1..], path)
  }

  /** An answer has names below those some made folder resolves to, its own where
      it still stands. Once `open_path` has found something there, that is where
      it is, exactly unless the path did not exist and its lookup had given up on
      links. A path is refused when every made folder refuses it. */
  lemma OpenableIsInAMadeFolder(fs: Fs, folders: seq<Made>, path: Path)
    requires WellFormed(fs)
    ensures var answer := OpenableIn(fs, folders, path);
            answer.Ok? ==>
              var to := answer.value;
              && (exists made <- folders ::
                    && Resolved(fs, PathTo(made.path)).names != []
                    && Resolved(fs, PathTo(made.path)).names <= to.names
                    && (Real(fs, made.path) ==> made.path <= to.names))
              && (Opened(fs, answer).Ok? ==>
                    ((Real(fs, to.names) && Lookup(fs, Written(to)).at == to.names) <==>
                     Exists(fs, path) || !GaveUpOnLinks(fs, path)))
    ensures OpenableIn(fs, folders, path).Err? <==>
            forall made <- folders :: Openable(fs, path, PathTo(made.path)).Err?
  {
    hide Openable, OpenableIn, Resolved, GaveUpOnLinks, Exists, Lookup, Walk, WellFormed, Real;
    FirstThatOpens(fs, folders, path);
    if made :| made in folders && Openable(fs, path, PathTo(made.path)).Ok?
               && Openable(fs, path, PathTo(made.path)) == OpenableIn(fs, folders, path) {
      OpenableStaysInside(fs, path, PathTo(made.path));
      if Real(fs, made.path) {
        RealResolvesToItself(fs, made.path);
      }
    }
  }

  lemma {:induction false} FirstThatOpens(fs: Fs, folders: seq<Made>, path: Path)
    ensures OpenableIn(fs, folders, path).Ok? ==>
              exists made <- folders ::
                Openable(fs, path, PathTo(made.path)).Ok? && Openable(fs, path, PathTo(made.path)) == OpenableIn(fs, folders, path)
    ensures OpenableIn(fs, folders, path).Err? <==>
            forall made <- folders :: Openable(fs, path, PathTo(made.path)).Err?
    decreases |folders|
  {
    hide Openable;
    if folders != [] {
      FirstThatOpens(fs, folders[1..], path);
      assert forall made :: made in folders <==> made == folders[0] || made in folders[1..];
    }
  }

  /** No link stands at or below `folder` on the way to `names`. */
  predicate LinkFree(fs: Fs, folder: Names, names: Names) {
    folder <= names
    && forall k | |folder| <= k <= |names| :: names[..k] in fs.nodes ==> !fs.nodes[names[..k]].Link?
  }

  /** What is in a made folder, with no link on the way, opens by its names,
      however the path is written. */
  lemma OpensHoweverWritten(fs: Fs, folders: seq<Made>, folder: Names, path: Path)
    requires WellFormed(fs) && Real(fs, folder) && folder != [] && Records(folders, folder)
    requires NamesOf(path).Some? && LinkFree(fs, folder, NamesOf(path).value)
    ensures OpenableIn(fs, folders, path) == Ok(Plain(true, NamesOf(path).value))
  {
    hide Walk, Lookup, WellFormed, Resolved, Real, Exists, WithoutDots, NamesOf;
    var names := NamesOf(path).value;
    var rest := names[|folder|..];
    assert folder + rest == names;
    forall k | 0 <= k <= |rest| ensures folder + rest[..k] == names[..|folder| + k] {
    }
    NamesWithoutLinks(fs, folder, rest);
    PathOfNames(path);
    SameDestination(fs, path);
    RealResolvesToItself(fs, folder);
    var made :| made in folders && made.path == folder;
    assert Openable(fs, path, PathTo(made.path)) == Ok(Plain(true, names));
    FirstThatOpens(fs, folders, path);
  }

  /** A path with names has their destination, if that is what they say. */
  lemma SameDestination(fs: Fs, path: Path)
    requires NamesOf(path).Some?
    requires Destination(fs, PathTo(NamesOf(path).value)) == Plain(true, NamesOf(path).value)
    ensures Destination(fs, path) == Plain(true, NamesOf(path).value)
  {
    hide Walk, WithoutDots, Resolved, Nearest;
    var names := NamesOf(path).value;
    NamesLead(fs, path);
    SameNormalized(path);
    PlainPath(Plain(true, names));
    ResolvedAlike(fs, path, PathTo(names));
    if Exists(fs, PathTo(names)) {
      ExistingIsNearest(fs, PathTo(names));
    }
  }

  lemma ResolvedAlike(fs: Fs, a: Path, b: Path)
    requires Normalized(a) == Normalized(b)
    ensures Resolved(fs, a) == Resolved(fs, b)
  {
    hide Normalized, Nearest, Lookup, Walk;
  }

  lemma SameNormalized(path: Path)
    requires NamesOf(path).Some?
    ensures Normalized(path) == Plain(true, NamesOf(path).value)
  {
    hide WithoutDots, Collapsed;
    PathOfNames(path);
    DotsCollapse(path.parts);
    PlainPath(Plain(true, NamesOf(path).value));
  }

  lemma {:induction false} DotsCollapse(parts: seq<Part>)
    ensures Collapsed(WithoutDots(parts)) == Collapsed(parts)
    decreases |parts|
  {
    if parts != [] {
      var last := |parts| - 1;
      DotsCollapse(parts[..last]);
      var before := WithoutDots(parts[..last]);
      if parts[last].Here? {
        assert before + [] == before;
      } else {
        assert (before + [parts[last]])[..|before|] == before;
      }
    }
  }

  /** Any path, through whatever links, that leads to a recorded folder holding its
      sentinel is answered with that folder; to one that is not recorded or holds
      nothing of that name, with an error. */
  lemma AnsweredByWhereItLeads(fs: Fs, folders: seq<Made>, dir: Path)
    requires WellFormed(fs)
    ensures dir.absolute && Exists(fs, dir) ==>
              var folder := Lookup(fs, dir).at;
              && (Marked(fs, folder) && Records(folders, folder) ==> FolderAnswer(fs, folders, dir) == Ok(folder))
              && (Marker(folder) !in fs.nodes || !Records(folders, folder) ==> FolderAnswer(fs, folders, dir).Err?)
    ensures !dir.absolute || !Exists(fs, dir) ==> FolderAnswer(fs, folders, dir).Err?
  {
    if dir.absolute && Exists(fs, dir) {
      var folder := Lookup(fs, dir).at;
      ExistsReal(fs, dir);
      if Marker(folder) in fs.nodes {
        if Marked(fs, folder) {
          LookupReal(fs, Marker(folder));
        }
      } else {
        NotThere(fs, folder, SENTINEL);
      }
    }
  }

  /** A recorded folder that holds its sentinel is accepted by its own name. */
  lemma MarkedIsAccepted(fs: Fs, folders: seq<Made>, folder: Names)
    requires WellFormed(fs) && Marked(fs, folder) && Records(folders, folder)
    ensures FolderAnswer(fs, folders, PathTo(folder)) == Ok(folder)
  {
    LookupReal(fs, folder);
    LookupReal(fs, Marker(folder));
  }

  // ----- Taking things away -----------------------------------------------------

  /** `after` is `before` less some of what is at or below `folder`. */
  predicate OnlyLess(before: Fs, after: Fs, folder: Names) {
    && after.cwd == before.cwd && after.maxLinks == before.maxLinks && after.devices == before.devices
    && (forall at <- after.nodes :: at in before.nodes && after.nodes[at] == before.nodes[at])
    && (forall at <- before.nodes :: folder <= at || at in after.nodes)
  }

  ghost function Under(fs: Fs, top: Names): set<Names> {
    set at | at in fs.nodes && top < at
  }

  /** A leaf at or below something that is there. */
  lemma LeafBelow(fs: Fs, top: Names) returns (leaf: Names)
    requires top in fs.nodes
    ensures leaf in fs.nodes && top <= leaf && !HasChild(fs, leaf)
    decreases Under(fs, top)
  {
    leaf := top;
    if HasChild(fs, top) {
      var child :| child in fs.nodes && |child| == |top| + 1 && top < child;
      forall at | at in Under(fs, child) ensures at in Under(fs, top) {
        assert at[..|top|] == child[..|top|] == top;
      }
      assert child in Under(fs, top) && child !in Under(fs, child);
      leaf := LeafBelow(fs, child);
    }
  }

  lemma RemovalIsLess(before: Fs, fs: Fs, folder: Names, at: Names)
    requires OnlyLess(before, fs, folder) && folder <= at
    ensures OnlyLess(before, Removed(fs, at), folder)
  {
  }

  /** Taking away something below `folder` that is not its sentinel leaves the
      sentinel, and the folder. */
  lemma LeafGoes(before: Fs, fs: Fs, folder: Names, name: string, leaf: Names)
    requires WellFormed(fs) && HasMarker(fs, folder) && OnlyLess(before, fs, folder + [name]) && name != SENTINEL
    requires leaf in fs.nodes && folder + [name] <= leaf && !HasChild(fs, leaf)
    ensures var t := Removed(fs, leaf);
            && WellFormed(t) && HasMarker(t, folder) && OnlyLess(before, t, folder + [name])
            && t.nodes.Keys < fs.nodes.Keys
  {
    assert leaf[|folder|] == name && leaf != Marker(folder);
    RemovalKeepsForm(fs, leaf);
    RemovalIsLess(before, fs, folder + [name], leaf);
    assert leaf in fs.nodes.Keys && leaf !in Removed(fs, leaf).nodes.Keys;
  }

  /** What goes at or below an entry goes below its folder. */
  lemma LessOfAnEntry(before: Fs, after: Fs, folder: Names, name: string)
    requires OnlyLess(before, after, folder + [name])
    ensures OnlyLess(before, after, folder)
  {
    assert folder <= folder + [name];
  }

  /** The names right in `folder`. */
  function ChildNames(fs: Fs, folder: Names): set<string> {
    set at | at in fs.nodes && |at| == |folder| + 1 && folder < at :: at[|folder|]
  }

  lemma ChildNamesAre(fs: Fs, folder: Names)
    ensures forall name :: name in ChildNames(fs, folder) <==> folder + [name] in fs.nodes
    ensures HasChild(fs, folder) <==> ChildNames(fs, folder) != {}
  {
    forall name ensures name in ChildNames(fs, folder) <==> folder + [name] in fs.nodes {
      if name in ChildNames(fs, folder) {
        var at :| at in fs.nodes && |at| == |folder| + 1 && folder < at && at[|folder|] == name;
        assert at == folder + [name];
      } else {
        assert folder < folder + [name] && (folder + [name])[|folder|] == name;
      }
    }
    if HasChild(fs, folder) {
      var child :| child in fs.nodes && |child| == |folder| + 1 && folder < child;
      assert child[|folder|] in ChildNames(fs, folder);
    }
    if name :| name in ChildNames(fs, folder) {
      assert folder < folder + [name];
    }
  }

  lemma OnlyFoldersHaveChildren(fs: Fs, at: Names)
    requires WellFormed(fs)
    ensures HasChild(fs, at) ==> IsDir(fs, at)
  {
    if child :| child in fs.nodes && |child| == |at| + 1 && at < child {
      assert Above(child) == at;
    }
  }

  /** How many removals succeed before one fails, or the process stops; `None`
      when nothing goes wrong. */
  type Budget = Option<nat>

  predicate Spent(budget: Budget) {
    budget == Some(0)
  }

  function Less(budget: Budget): Budget {
    match budget
    case None => None
    case Some(n) => if n == 0 then budget else Some(n - 1)
  }

  /** The names of a path that equals one from the root with nothing but names,
      as every recorded path is. */
  function NamesOf(path: Path): Option<Names> {
    var parts := WithoutDots(path.parts);
    if path.absolute && forall part <- parts :: part.Name?
    then Some(seq(|parts|, i requires 0 <= i < |parts| && parts[i].Name? => parts[i].name))
    else None
  }

  lemma {:induction false} NoDots(parts: seq<Part>)
    requires forall part <- parts :: part.Name?
    ensures WithoutDots(parts) == parts
    decreases |parts|
  {
    if parts != [] {
      var last := |parts| - 1;
      assert parts == parts[..last] + [parts[last]] && parts[last] in parts;
      NoDots(parts[..last]);
    }
  }

  lemma NamesOfPathTo(names: Names)
    ensures NamesOf(PathTo(names)) == Some(names)
  {
    assert forall part <- Parts(names) :: part.Name?;
    NoDots(Parts(names));
    assert NamesOf(PathTo(names)).value == names;
  }

  /** Names are written for equal paths and for no others. */
  lemma NamesMeanEqual(path: Path, names: Names)
    ensures NamesOf(path) == Some(names) <==> Components(path) == Components(PathTo(names))
  {
    hide WithoutDots;
    NamesOfPathTo(names);
    if NamesOf(path) == Some(names) {
      PathOfNames(path);
      PathOfNames(PathTo(names));
    }
  }

  /** What the record has at the path: the first folder made at an equal one. */
  function RecordedAt(folders: seq<Made>, path: Path): Option<Made> {
    match NamesOf(path)
    case None => None
    case Some(names) => Recorded(folders, names)
  }

  function DeviceWanted(made: Option<Made>): Option<nat> {
    match made
    case None => None
    case Some(m) => m.device
  }

  /** Where `rmdir` finds a path: the last name is not followed. */
  function Located(fs: Fs, path: Path): Option<Names> {
    if path.parts == [] || !path.parts[|path.parts| - 1].Name? then None
    else
      var above := Lookup(fs, path.(parts := path.parts[..|path.parts| - 1]));
      if above.Reached? then Some(above.at + [path.parts[|path.parts| - 1].name]) else None
  }

  /** The path a delete of `dir` forgets when it succeeds. */
  function Target(fs: Fs, folders: seq<Made>, dir: Path): Option<Names> {
    var made := RecordedAt(folders, dir);
    if IsGone(fs, dir, DeviceWanted(made)) || (made.Some? && LooksEmpty(fs, dir)) then NamesOf(dir)
    else if Exists(fs, dir) then Some(Lookup(fs, dir).at)
    else None
  }

  function WithoutTarget(record: Record, target: Option<Names>): Record {
    match target
    case None => record
    case Some(names) => Changed(record, Forget(names))
  }

  /** What is gone is gone by its own names, but for a link that a last `.` has
      followed, and what `rmdir` finds is where they say. */
  lemma GoneByName(fs: Fs, dir: Path, device: Option<nat>)
    requires WellFormed(fs)
    ensures NamesOf(dir).Some? && NamesOf(dir).value in fs.nodes && NamesOf(dir).value != [] ==>
              && (Located(fs, dir) == if EndsInName(dir) then NamesOf(dir) else None)
              && (IsGone(fs, dir, device) ==> EndsInDot(dir) && fs.nodes[NamesOf(dir).value].Link?)
    ensures NamesOf(dir) == Some([]) ==> !IsGone(fs, dir, device) && Located(fs, dir).None?
  {
    hide WellFormed, Walk, WithoutDots;
    if NamesOf(dir).Some? {
      PathOfNames(dir);
      LastOfNames(dir);
      if NamesOf(dir).value in fs.nodes && NamesOf(dir).value != [] {
        NamesAreLocated(fs, dir);
        if EndsInDot(dir) && Real(fs, NamesOf(dir).value) {
          NamesLead(fs, dir);
          LookupReal(fs, NamesOf(dir).value);
        }
      }
    }
  }

  /** What the checks before a removal came to. */
  predicate MayRemove(fs: Fs, folders: seq<Made>, dir: Path, folder: Names) {
    && Exists(fs, dir) && Lookup(fs, dir).at == folder
    && ( || (Records(folders, folder) && HasMarker(fs, folder))
         || (RecordedAt(folders, dir).Some? && IsEmptyDir(fs, folder)))
  }

  /** What a delete without faults succeeds on: what is gone already, a recorded
      folder that is empty, and a folder that is accepted and is not the root. */
  predicate Deletable(fs: Fs, folders: seq<Made>, dir: Path) {
    var made := RecordedAt(folders, dir);
    || IsGone(fs, dir, DeviceWanted(made))
    || (if made.Some? && LooksEmpty(fs, dir)
        then Located(fs, dir).Some? && IsEmptyDir(fs, Located(fs, dir).value)
        else FolderAnswer(fs, folders, dir).Ok? && FolderAnswer(fs, folders, dir).value != [])
  }

  lemma AcceptedMayBeRemoved(fs: Fs, folders: seq<Made>, dir: Path)
    requires WellFormed(fs) && FolderAnswer(fs, folders, dir).Ok?
    ensures MayRemove(fs, folders, dir, FolderAnswer(fs, folders, dir).value)
    ensures HasMarker(fs, FolderAnswer(fs, folders, dir).value)
  {
    var folder := FolderAnswer(fs, folders, dir).value;
    ExistsReal(fs, dir);
    WalkReal(fs, folder, fs.maxLinks);
    assert Parts(Marker(folder)) == Parts(folder) + [Name(SENTINEL)];
    WalkOn(fs, [], Parts(folder), [Name(SENTINEL)], fs.maxLinks);
    assert [Name(SENTINEL)][1..] == [];
  }

  /** A folder found without following the last name is where the path leads. */
  lemma LocatedIsReached(fs: Fs, dir: Path)
    requires WellFormed(fs) && dir.absolute && Located(fs, dir).Some? && Real(fs, Located(fs, dir).value)
    ensures Lookup(fs, dir) == Lookup(fs, dir.(parts := dir.parts[..|dir.parts| - 1])).(at := Located(fs, dir).value)
    ensures Located(fs, dir).value != []
  {
    hide Walk;
    var last := |dir.parts| - 1;
    var above := Lookup(fs, dir.(parts := dir.parts[..last])).at;
    assert Above(above + [dir.parts[last].name]) == above;
    assert dir.parts == dir.parts[..last] + [dir.parts[last]];
    WalkOn(fs, [], dir.parts[..last], [dir.parts[last]], fs.maxLinks);
    OneName(fs, above, dir.parts[last].name, Lookup(fs, dir.(parts := dir.parts[..last])).linksLeft);
  }

  /** `dir`, written up to its last name, is a recorded folder by its own names,
      in a state a delete leaves, and the folder it is in is still there, on the
      same device. */
  predicate Finishable(fs: Fs, file: Content, dir: Path) {
    && NamesOf(dir).Some? && NamesOf(dir).value != [] && EndsInName(dir)
    && Parsed(file).Ok?
    && var folder, folders := NamesOf(dir).value, Parsed(file).value.folders;
       && Records(folders, folder)
       && Recoverable(fs, folder)
       && IsDir(fs, Above(folder))
       && (DeviceWanted(Recorded(folders, folder)).Some? ==>
             DeviceOf(fs, Above(folder)) == DeviceWanted(Recorded(folders, folder)))
  }

  lemma PathOfNames(dir: Path)
    requires NamesOf(dir).Some?
    ensures dir.absolute && WithoutDots(dir.parts) == Parts(NamesOf(dir).value)
    ensures Components(dir) == PathTo(NamesOf(dir).value)
  {
    var parts := WithoutDots(dir.parts);
    assert forall i | 0 <= i < |parts| :: parts[i] in parts;
    assert parts == Parts(NamesOf(dir).value);
  }

  /** A path that has names ends in the last of them, or in a `.`. */
  lemma LastOfNames(dir: Path)
    requires NamesOf(dir).Some?
    ensures dir.parts == [] || EndsInDot(dir) || EndsInName(dir)
    ensures EndsInName(dir) ==>
              var names := NamesOf(dir).value;
              && names != [] && dir.parts[|dir.parts| - 1] == Name(names[|names| - 1])
              && WithoutDots(Parent(dir).parts) == Parts(Above(names))
    ensures dir.parts == [] ==> NamesOf(dir).value == []
  {
    PathOfNames(dir);
    var names := NamesOf(dir).value;
    if dir.parts != [] && !EndsInDot(dir) {
      var last := dir.parts[|dir.parts| - 1];
      var before := WithoutDots(Parent(dir).parts);
      assert Parts(names) == before + [last];
      assert Parts(names)[|before|] == last && |names| == |before| + 1;
      assert Parts(Above(names)) == Parts(names)[..|before|] == before;
    }
  }

  /** A path with names leads where they do, to a folder if it ends in a `.`. */
  lemma NamesLead(fs: Fs, dir: Path)
    requires NamesOf(dir).Some?
    ensures var w := Lookup(fs, PathTo(NamesOf(dir).value));
            Lookup(fs, dir) == if EndsInDot(dir) then AsFolder(fs, w) else w
  {
    hide WithoutDots, Walk;
    PathOfNames(dir);
    DotsAskForFolders(fs, [], dir.parts, fs.maxLinks);
  }

  lemma AboveIsFound(fs: Fs, folder: Names)
    requires WellFormed(fs) && folder != [] && IsDir(fs, Above(folder))
    ensures var dir := PathTo(folder);
            && dir.parts != [] && dir.parts[|dir.parts| - 1] == Name(folder[|folder| - 1])
            && Lookup(fs, dir.(parts := dir.parts[..|dir.parts| - 1])) == Reached(Above(folder), fs.maxLinks)
            && Located(fs, dir) == Some(folder)
  {
    hide WellFormed, Walk;
    var dir := PathTo(folder);
    assert dir.parts[..|dir.parts| - 1] == Parts(Above(folder));
    LookupReal(fs, Above(folder));
    assert Above(folder) + [folder[|folder| - 1]] == folder;
  }

  /** The folder before the last name of a path with names, and where `rmdir`
      looks. */
  lemma NameIsLocated(fs: Fs, dir: Path)
    requires WellFormed(fs) && NamesOf(dir).Some? && EndsInName(dir) && IsDir(fs, Above(NamesOf(dir).value))
    ensures Lookup(fs, Parent(dir)) == Reached(Above(NamesOf(dir).value), fs.maxLinks)
    ensures Located(fs, dir) == NamesOf(dir)
  {
    hide WithoutDots, Walk, WellFormed;
    var names := NamesOf(dir).value;
    PathOfNames(dir);
    LastOfNames(dir);
    LookupReal(fs, Above(names));
    DotsAskForFolders(fs, [], Parent(dir).parts, fs.maxLinks);
    assert Above(names) + [names[|names| - 1]] == names;
  }

  /** A path with the names of something that is there is located at it, if it
      ends in the last of them. */
  lemma NamesAreLocated(fs: Fs, dir: Path)
    requires WellFormed(fs) && NamesOf(dir).Some? && NamesOf(dir).value != [] && NamesOf(dir).value in fs.nodes
    ensures Located(fs, dir) == if EndsInName(dir) then NamesOf(dir) else None
    ensures EndsInName(dir) ==> !NotFound(fs, dir)
  {
    hide WithoutDots, Walk;
    LastOfNames(dir);
    if EndsInName(dir) {
      NameIsLocated(fs, dir);
      var names := NamesOf(dir).value;
      assert Above(names) + [names[|names| - 1]] == names;
    }
  }

  /** `is_gone`, for a path by its names, in a folder that is there. */
  lemma GoneInAFolder(fs: Fs, dir: Path, device: Option<nat>)
    requires WellFormed(fs) && NamesOf(dir).Some? && NamesOf(dir).value != []
    requires IsDir(fs, Above(NamesOf(dir).value))
    requires EndsInDot(dir) && NamesOf(dir).value in fs.nodes ==> !fs.nodes[NamesOf(dir).value].Link?
    ensures IsGone(fs, dir, device) <==>
            && NamesOf(dir).value !in fs.nodes
            && (device.Some? ==> DeviceOf(fs, Above(NamesOf(dir).value)) == device)
  {
    hide WithoutDots, Walk, WellFormed;
    var names := NamesOf(dir).value;
    PathOfNames(dir);
    LastOfNames(dir);
    LookupReal(fs, Above(names));
    AboveIsFound(fs, names);
    assert Parent(Components(dir)).parts == Parts(Above(names));
    assert Above(names) + [names[|names| - 1]] == names;
    if EndsInName(dir) {
      NameIsLocated(fs, dir);
    } else {
      NamesLead(fs, dir);
      NamesThereOrNot(fs, names);
    }
  }

  /** What names come to, in a folder that is there, if they are no link's. */
  lemma NamesThereOrNot(fs: Fs, names: Names)
    requires WellFormed(fs) && names != [] && IsDir(fs, Above(names))
    requires names in fs.nodes ==> !fs.nodes[names].Link?
    ensures Lookup(fs, PathTo(names)) == if names in fs.nodes then Reached(names, fs.maxLinks) else Missing
  {
    hide WithoutDots, WellFormed;
    if names in fs.nodes {
      LookupReal(fs, names);
    } else {
      var last := |names| - 1;
      LookupReal(fs, Above(names));
      assert Parts(names) == Parts(Above(names)) + [Name(names[last])];
      WalkOn(fs, [], Parts(Above(names)), [Name(names[last])], fs.maxLinks);
      assert Above(names) + [names[last]] == names;
    }
  }

  /** Which way a delete of a finishable folder goes. */
  lemma FinishableWays(fs: Fs, file: Content, dir: Path)
    requires WellFormed(fs) && Finishable(fs, file, dir)
    ensures var folder, folders := NamesOf(dir).value, Parsed(file).value.folders;
            var made := RecordedAt(folders, dir);
            && Parsed(file).Ok? && dir.absolute && folder != []
            && made.Some?
            && Located(fs, dir) == Some(folder)
            && (IsGone(fs, dir, DeviceWanted(made)) <==> folder !in fs.nodes)
            && (folder in fs.nodes ==>
                  || (LooksEmpty(fs, dir) && IsEmptyDir(fs, folder))
                  || (!LooksEmpty(fs, dir) && FolderAnswer(fs, folders, dir) == Ok(folder)))
  {
    hide WithoutDots, Walk, WellFormed;
    var folder, folders := NamesOf(dir).value, Parsed(file).value.folders;
    PathOfNames(dir);
    RecordedFinds(folders, folder);
    NameIsLocated(fs, dir);
    GoneInAFolder(fs, dir, DeviceWanted(Recorded(folders, folder)));
    NamesThereOrNot(fs, folder);
    NamesLead(fs, dir);
    if folder in fs.nodes && Marked(fs, folder) {
      AcceptedAlike(fs, folders, dir);
      MarkedIsAccepted(fs, folders, folder);
      assert Marker(folder) in fs.nodes && folder < Marker(folder);
    }
  }

  /** A path that leads where its names do is answered as they are. */
  lemma AcceptedAlike(fs: Fs, folders: seq<Made>, dir: Path)
    requires NamesOf(dir).Some? && Lookup(fs, dir) == Lookup(fs, PathTo(NamesOf(dir).value))
    ensures FolderAnswer(fs, folders, dir) == FolderAnswer(fs, folders, PathTo(NamesOf(dir).value))
  {
    hide WithoutDots, Walk;
    PathOfNames(dir);
  }

  /** A recorded folder that is not found where the folder it was in is on another
      device, as an unplugged drive's mount point is, is not deleted. */
  lemma UnpluggedIsNotDeleted(fs: Fs, folders: seq<Made>, dir: Path, folder: Names, device: nat)
    requires WellFormed(fs) && NamesOf(dir) == Some(folder) && folder != []
    requires Recorded(folders, folder) == Some(Made(folder, Some(device)))
    requires folder !in fs.nodes && IsDir(fs, Above(folder)) && DeviceOf(fs, Above(folder)) != Some(device)
    ensures !Deletable(fs, folders, dir)
  {
    hide WithoutDots, Walk, WellFormed;
    GoneInAFolder(fs, dir, Some(device));
    NamesThereOrNot(fs, folder);
    NamesLead(fs, dir);
  }

  /** One on the same device is, and one that records no device too. */
  lemma GoneIsDeleted(fs: Fs, folders: seq<Made>, dir: Path, folder: Names, device: Option<nat>)
    requires WellFormed(fs) && NamesOf(dir) == Some(folder) && folder != []
    requires Recorded(folders, folder) == Some(Made(folder, device))
    requires folder !in fs.nodes && IsDir(fs, Above(folder))
    requires device == None || DeviceOf(fs, Above(folder)) == device
    ensures Deletable(fs, folders, dir) && Target(fs, folders, dir) == Some(folder)
  {
    hide WithoutDots, Walk, WellFormed;
    GoneInAFolder(fs, dir, device);
  }

  // ----- Making folders -----------------------------------------------------------

  predicate LabelChar(c: char) {
    'a' <= c <= 'z' || '0' <= c <= '9' || c == '-'
  }

  /** `folder_slug`. */
  function FolderSlug(what: string): Result<string> {
    if !(0 < |what| <= 40 && forall c <- what :: LabelChar(c)) then Err("cannot name a staging folder")
    else if what == "imessage-ios" then Ok("iphone-ios")
    else if what == "imessage-macos" then Ok("macos")
    else if what == "imessage-jailbreak" then Ok("iphone-jailbreak")
    else Ok(what)
  }

  function FolderName(what: string, timestamp: string): string
    requires FolderSlug(what).Ok?
  {
    "staging-" + FolderSlug(what).value + "-" + timestamp
  }

  /** The name reads: what it is, the label's short form, and at the end when. */
  lemma FolderNameReads(what: string, timestamp: string)
    requires FolderSlug(what).Ok?
    ensures var name, slug := FolderName(what, timestamp), FolderSlug(what).value;
            && "staging-" <= name
            && slug <= name[8..]
            && "-" <= name[8 + |slug|..]
            && name[9 + |slug|..] == timestamp
  {
    var name, slug := FolderName(what, timestamp), FolderSlug(what).value;
    assert name[8..] == slug + ("-" + timestamp);
    assert name[8 + |slug|..] == "-" + timestamp;
  }

  lemma LabelCharsAre(c: char)
    ensures LabelChar(c) <==> c in "abcdefghijklmnopqrstuvwxyz" + "0123456789" + "-"
  {
    var letters, digits := "abcdefghijklmnopqrstuvwxyz", "0123456789";
    assert 'a' <= c <= 'z' ==> letters[c as nat - 'a' as nat] == c;
    assert '0' <= c <= '9' ==> digits[c as nat - '0' as nat] == c;
  }

  /** Three labels are shortened, and any other valid one is used as it is. */
  lemma LabelsRead(what: string)
    ensures FolderSlug("imessage-ios") == Ok("iphone-ios")
    ensures FolderSlug("imessage-macos") == Ok("macos")
    ensures FolderSlug("imessage-jailbreak") == Ok("iphone-jailbreak")
    ensures what !in {"imessage-ios", "imessage-macos", "imessage-jailbreak"} && FolderSlug(what).Ok? ==>
              FolderSlug(what) == Ok(what)
    ensures FolderSlug(what).Ok? <==>
            0 < |what| <= 40
            && forall i | 0 <= i < |what| :: what[i] in "abcdefghijklmnopqrstuvwxyz" + "0123456789" + "-"
  {
    assert forall i | 0 <= i < |what| :: what[i] in what;
    forall c: char ensures LabelChar(c) <==> c in "abcdefghijklmnopqrstuvwxyz" + "0123456789" + "-" {
      LabelCharsAre(c);
    }
  }

  /** No label names a folder anywhere but right in the Staging Directory. */
  lemma SlugIsOneName(what: string)
    ensures FolderSlug(what).Ok? ==>
              FolderSlug(what).value != "" && forall c <- FolderSlug(what).value :: LabelChar(c)
  {
  }

  function Digit(d: nat): char
    requires d < 10
  {
    "0123456789"[d]
  }

  function Decimal(n: nat): string {
    if n < 10 then [Digit(n)] else Decimal(n / 10) + [Digit(n % 10)]
  }

  function DigitValue(c: char): nat {
    if '0' <= c <= '9' then c as nat - '0' as nat else 0
  }

  function ValueOf(s: string): nat {
    if s == "" then 0 else 10 * ValueOf(s[..|s| - 1]) + DigitValue(s[|s| - 1])
  }

  lemma {:induction false} DecimalHasItsValue(n: nat)
    ensures ValueOf(Decimal(n)) == n
  {
    if n >= 10 {
      DecimalHasItsValue(n / 10);
      assert Decimal(n)[..|Decimal(n)| - 1] == Decimal(n / 10);
    } else {
      assert Decimal(n)[..0] == "";
    }
  }

  /** The name tried at the `n`th attempt. */
  function Attempt(base: string, n: nat): string {
    if n <= 1 then base else base + "-" + Decimal(n)
  }

  /** A further attempt reads: the name, a dash and its number. */
  lemma AttemptReads(base: string, n: nat)
    ensures n <= 1 ==> Attempt(base, n) == base
    ensures n > 1 ==>
              base + "-" <= Attempt(base, n)
              && Attempt(base, n)[|base| + 1..] == Decimal(n) && ValueOf(Decimal(n)) == n
  {
    DecimalHasItsValue(n);
    if n > 1 {
      assert base + "-" + Decimal(n) == (base + "-") + Decimal(n);
    }
  }

  lemma AttemptsDiffer(base: string, m: nat, n: nat)
    requires 1 <= m < n
    ensures Attempt(base, m) != Attempt(base, n)
  {
    if m > 1 && Attempt(base, m) == Attempt(base, n) {
      var prefix := base + "-";
      assert Attempt(base, m)[|prefix|..] == Decimal(m) && Attempt(base, n)[|prefix|..] == Decimal(n);
      DecimalHasItsValue(m);
      DecimalHasItsValue(n);
    }
  }

  /** Everything that was there still is, as it was. */
  predicate OnlyMore(before: Fs, after: Fs) {
    && after.cwd == before.cwd && after.maxLinks == before.maxLinks
    && forall at <- before.nodes :: at in after.nodes && after.nodes[at] == before.nodes[at]
  }

  /** What is there of the way to `root` ends at a folder, in which the next name
      is not there. */
  predicate MayMakeAll(fs: Fs, root: Names) {
    var p := Plain(true, root);
    var near := Nearest(fs, p, |root|);
    NearestExists(fs, p, |root|);
    near.Some?
    && var at := Lookup(fs, Written(Upto(p, near.value))).at;
       && IsDir(fs, at)
       && (near.value < |root| ==> at + [root[near.value]] !in fs.nodes)
  }

  /** The first `k` names of `root` lead to `at`. */
  predicate LeadsTo(fs: Fs, root: Names, k: nat, at: Names)
    requires k <= |root|
  {
    Exists(fs, PathTo(root[..k])) && Lookup(fs, PathTo(root[..k])).at == at
  }

  /** `at` is where what is there of `root` leads, and the names after that up to
      the `k`th. */
  predicate OnTheWay(fs: Fs, root: Names, k: nat, at: Names)
    requires k <= |root|
  {
    var p := Plain(true, root);
    var near := Nearest(fs, p, |root|);
    NearestExists(fs, p, |root|);
    near.Some? && near.value <= k
    && at == Lookup(fs, Written(Upto(p, near.value))).at + root[near.value..k]
  }

  lemma StartsAtTheRoot(fs: Fs, root: Names)
    requires WellFormed(fs)
    ensures IsDir(fs, []) && LeadsTo(fs, root, 0, []) && OnlyMore(fs, fs)
  {
    LookupReal(fs, []);
    assert root[..0] == [];
  }

  lemma NextPart(fs: Fs, root: Names, k: nat, at: Names)
    requires k < |root| && LeadsTo(fs, root, k, at)
    ensures Lookup(fs, PathTo(root[..k + 1])) == Walk(fs, at, [Name(root[k])], Lookup(fs, PathTo(root[..k])).linksLeft)
  {
    hide Walk;
    assert Parts(root[..k + 1]) == Parts(root[..k]) + [Name(root[k])];
    WalkOn(fs, [], Parts(root[..k]), [Name(root[k])], fs.maxLinks);
  }

  lemma ChildOf(fs: Fs, at: Names, name: string)
    ensures at + [name] in fs.nodes ==> HasChild(fs, at)
  {
    assert at < at + [name];
  }

  lemma OneFurther(fs: Fs, root: Names, k: nat, at: Names)
    requires k < |root| && LeadsTo(fs, root, k, at) && Exists(fs, PathTo(root[..k + 1]))
    ensures LeadsTo(fs, root, k + 1, Lookup(fs, PathTo(root[..k + 1])).at)
    ensures HasChild(fs, at)
  {
    NextPart(fs, root, k, at);
    ChildOf(fs, at, root[k]);
  }

  lemma FileIsInTheWay(fs: Fs, root: Names, k: nat)
    requires k <= |root| && Exists(fs, PathTo(root[..k])) && !IsDir(fs, Lookup(fs, PathTo(root[..k])).at)
    ensures !MayMakeAll(fs, root)
  {
    var p := Plain(true, root);
    NearestExists(fs, p, |root|);
    assert Exists(fs, Written(Upto(p, k)));
    var near := Nearest(fs, p, |root|).value;
    if near > k {
      hide Walk;
      var more := Parts(root[k..near]);
      assert Parts(root[..near]) == Parts(root[..k]) + more && more != [];
      WalkOn(fs, [], Parts(root[..k]), more, fs.maxLinks);
      var w := Lookup(fs, PathTo(root[..k]));
      NotAFolder(fs, w.at, more, w.linksLeft);
    }
  }

  lemma NotAFolder(fs: Fs, at: Names, parts: seq<Part>, links: nat)
    requires !IsDir(fs, at) && parts != []
    ensures Walk(fs, at, parts, links) == NotADirectory
  {
  }

  lemma WhatIsMissing(fs: Fs, root: Names, k: nat, at: Names)
    requires k < |root| && LeadsTo(fs, root, k, at) && IsDir(fs, at) && !Exists(fs, PathTo(root[..k + 1]))
    ensures MayMakeAll(fs, root) <==> at + [root[k]] !in fs.nodes
    ensures OnTheWay(fs, root, k, at)
  {
    hide Walk, Lookup, Nearest;
    var p := Plain(true, root);
    assert Written(Upto(p, k)) == PathTo(root[..k]) && Written(Upto(p, k + 1)) == PathTo(root[..k + 1]);
    NearestIs(fs, p, k);
    assert root[k..k] == [];
  }

  lemma {:induction false} MoreKeepsWalks(before: Fs, fs: Fs, at: Names, todo: seq<Part>, links: nat)
    requires OnlyMore(before, fs) && Walk(before, at, todo, links).Reached?
    ensures Walk(fs, at, todo, links) == Walk(before, at, todo, links)
    decreases links, |todo|
  {
    if todo != [] {
      match todo[0] {
        case Here => MoreKeepsWalks(before, fs, at, todo[1..], links);
        case Up => MoreKeepsWalks(before, fs, Above(at), todo[1..], links);
        case Name(name) =>
          var next := at + [name];
          if before.nodes[next].Link? {
            var target := before.nodes[next].target;
            MoreKeepsWalks(before, fs, if target.absolute then [] else at, target.parts + todo[1..], links - 1);
          } else {
            MoreKeepsWalks(before, fs, next, todo[1..], links);
          }
      }
    }
  }

  /** One folder made on the way, empty and where the names so far lead. */
  lemma OneMoreMade(before: Fs, fs: Fs, root: Names, k: nat, at: Names)
    requires WellFormed(fs) && OnlyMore(before, fs)
    requires k < |root| && LeadsTo(fs, root, k, at) && IsDir(fs, at) && at + [root[k]] !in fs.nodes
    requires OnTheWay(before, root, k, at)
    ensures var next := at + [root[k]]; var after := Added(fs, next, Dir);
            && WellFormed(after) && OnlyMore(before, after)
            && IsDir(after, next) && LeadsTo(after, root, k + 1, next)
            && OnTheWay(before, root, k + 1, next)
            && !HasChild(after, next)
            && after != before
  {
    hide WellFormed, Walk, Nearest, HasChild;
    var next := at + [root[k]];
    var after := Added(fs, next, Dir);
    assert Above(next) == at;
    AdditionIsMore(before, fs, next, Dir);
    AddedIsReached(fs, after, root, k, at);
    NothingInNothing(fs, next);
    forall name ensures next + [name] !in after.nodes {
      assert next + [name] != next;
    }
    NoChildLeft(after, next);
    NearestExists(before, Plain(true, root), |root|);
    var near := Nearest(before, Plain(true, root), |root|).value;
    assert root[near..k + 1] == root[near..k] + [root[k]];
    assert next !in before.nodes;
  }

  lemma AddedIsReached(fs: Fs, after: Fs, root: Names, k: nat, at: Names)
    requires k < |root| && LeadsTo(fs, root, k, at) && IsDir(fs, at)
    requires OnlyMore(fs, after) && IsDir(after, at + [root[k]])
    ensures LeadsTo(after, root, k + 1, at + [root[k]])
  {
    hide Walk;
    MoreKeepsWalks(fs, after, [], Parts(root[..k]), fs.maxLinks);
    NextPart(after, root, k, at);
    OneName(after, at, root[k], Lookup(after, PathTo(root[..k])).linksLeft);
  }

  /** At the end of the way, whether anything was made or not. */
  lemma AllTheWay(before: Fs, fs: Fs, root: Names, at: Names)
    requires IsDir(fs, at) && LeadsTo(fs, root, |root|, at)
    requires fs != before ==> MayMakeAll(before, root) && OnTheWay(before, root, |root|, at)
    ensures MayMakeAll(before, root) && at == Resolved(before, PathTo(root)).names
  {
    hide Walk, Lookup, Nearest, Resolved, Collapsed;
    var p := Plain(true, root);
    PlainPath(p);
    assert root[..|root|] == root && Upto(p, |root|) == p;
    NearestExists(before, p, |root|);
    if fs == before {
      ExistingIsNearest(before, PathTo(root));
    } else {
      ResolvedFrom(before, PathTo(root), Nearest(before, p, |root|).value);
    }
  }

  /** A Staging Directory is made where it resolves to, exactly unless its lookup
      had given up on links. */
  lemma MadeWhereItResolves(fs: Fs, raw: Path)
    requires WellFormed(fs) && StagingRoot(fs, raw).Ok?
    ensures var top := StagingRoot(fs, raw).value;
            Resolved(fs, PathTo(top.names)) == top <==> !GaveUpOnLinks(fs, raw)
  {
    hide Walk, Lookup, Nearest, Resolved, GaveUpOnLinks, WellFormed;
    ResolvingIsStable(fs, raw);
    DestinationFromTheRoot(fs, raw);
    ResolvedFromTheRoot(fs, raw);
  }

  lemma ResolvedFromTheRoot(fs: Fs, path: Path)
    requires path.absolute
    ensures Resolved(fs, path).absolute
  {
    hide Walk, Lookup;
    NearestExists(fs, Normalized(path), |Normalized(path).names|);
  }

  /** The new folder, empty but for its sentinel. */
  ghost predicate JustMade(fs: Fs, folder: Names) {
    && Marked(fs, folder)
    && forall name :: folder + [name] in fs.nodes ==> name == SENTINEL
  }

  class StagingFolders {
    var fs: Fs
    const store: RecordFile
    const home: Option<Path>

    constructor (fs: Fs, store: RecordFile, home: Option<Path>)
      ensures this.fs == fs && this.store == store && this.home == home
    {
      this.fs, this.store, this.home := fs, store, home;
    }

    /** `remove_dir_all` on one entry: whatever is below it goes first. */
    method RemoveEntry(folder: Names, name: string, budget0: Budget) returns (ok: bool, budget: Budget)
      requires WellFormed(fs) && HasMarker(fs, folder) && name != SENTINEL
      modifies this`fs
      ensures WellFormed(fs) && HasMarker(fs, folder) && OnlyLess(old(fs), fs, folder + [name])
      ensures ok ==> folder + [name] !in fs.nodes
      ensures budget0.None? ==> ok && budget.None?
    {
      var top := folder + [name];
      budget := budget0;
      while top in fs.nodes
        invariant WellFormed(fs) && HasMarker(fs, folder) && OnlyLess(old(fs), fs, top)
        invariant budget0.None? ==> budget.None?
        decreases fs.nodes.Keys
      {
        if Spent(budget) {
          return false, budget;
        }
        ghost var _ := LeafBelow(fs, top);
        var leaf :| leaf in fs.nodes.Keys && top <= leaf && !HasChild(fs, leaf);
        LeafGoes(old(fs), fs, folder, name, leaf);
        fs := Removed(fs, leaf);
        budget := Less(budget);
      }
      ok := true;
    }

    /** `remove_sentinel_last`: every other entry, in any order, then the
        sentinel, then the folder. Cut short anywhere, the folder still holds
        its sentinel or is empty. */
    method RemoveSentinelLast(folder: Names, budget0: Budget) returns (ok: bool)
      requires WellFormed(fs) && HasMarker(fs, folder)
      modifies this`fs
      ensures WellFormed(fs) && OnlyLess(old(fs), fs, folder)
      ensures ok <==> folder !in fs.nodes
      ensures !ok ==> HasMarker(fs, folder) || IsEmptyDir(fs, folder)
      ensures budget0.None? && folder != [] ==> ok
    {
      hide WellFormed, OnlyLess, ChildNames;
      var todo := ChildNames(fs, folder) - {SENTINEL};
      var budget := budget0;
      ChildNamesAre(fs, folder);
      NothingLess(fs, folder);
      while todo != {}
        invariant WellFormed(fs) && HasMarker(fs, folder) && OnlyLess(old(fs), fs, folder)
        invariant forall name :: folder + [name] in fs.nodes ==> name in todo + {SENTINEL}
        invariant SENTINEL !in todo
        invariant budget0.None? ==> budget.None?
        decreases todo
      {
        var name :| name in todo;
        var done;
        label before:
        done, budget := RemoveEntry(folder, name, budget);
        LessOfAnEntry(old@before(fs), fs, folder, name);
        NoEntryMore(old@before(fs), fs, folder);
        OnlyLessTwice(old(fs), old@before(fs), fs, folder);
        if !done {
          return false;
        }
        todo := todo - {name};
      }
      if Spent(budget) {
        return false;
      }
      budget := Less(budget);
      EmptiedOfMarker(old(fs), fs, folder);
      fs := Removed(fs, Marker(folder));
      if Spent(budget) || folder == [] {
        return false;
      }
      RemovalKeepsForm(fs, folder);
      RemovalIsLess(old(fs), fs, folder, folder);
      fs := Removed(fs, folder);
      return true;
    }

    /** `delete`. On success exactly the target is forgotten, on an error
        nothing is; nothing is removed but from a recorded folder that held the
        sentinel or was empty; and wherever it stops, that folder still is one
        a later delete can finish. */
    method Delete(dir: Path, budget: Budget, fault: Fault) returns (ok: bool)
      requires WellFormed(fs)
      modifies this`fs, store
      ensures WellFormed(fs)
      ensures !ok ==> store.file == old(store.file)
      ensures ok ==> Parsed(old(store.file)).Ok?
      ensures ok ==>
                var r := Parsed(old(store.file)).value;
                store.file == Holds(WithoutTarget(r, Target(old(fs), r.folders, dir)))
      ensures fs != old(fs) ==>
                && Parsed(old(store.file)).Ok?
                && Exists(old(fs), dir)
                && var folder := Lookup(old(fs), dir).at;
                   && MayRemove(old(fs), Parsed(old(store.file)).value.folders, dir, folder)
                   && OnlyLess(old(fs), fs, folder)
                   && (folder !in fs.nodes || HasMarker(fs, folder) || IsEmptyDir(fs, folder))
      ensures ok ==> dir.absolute && Deletable(old(fs), Parsed(old(store.file)).value.folders, dir)
      ensures budget.None? && fault.NoFault? ==>
                (ok <==> Absolute(dir).Ok? && Parsed(old(store.file)).Ok?
                         && Deletable(old(fs), Parsed(old(store.file)).value.folders, dir))
      ensures ok ==>
                var target := Target(old(fs), Parsed(old(store.file)).value.folders, dir);
                target.Some? && target.value in fs.nodes ==> EndsInDot(dir) && fs.nodes[target.value].Link?
      ensures Finishable(old(fs), old(store.file), dir) ==>
                && (budget.None? && fault.NoFault? ==> ok)
                && (ok ==> NamesOf(dir).value !in fs.nodes)
    {
      hide Walk, IsGone, LooksEmpty, FolderAnswer, RecordedAt, Located, Records, Recorded, Finishable;
      if Finishable(fs, store.file, dir) {
        FinishableWays(fs, store.file, dir);
      }
      if Absolute(dir).Err? {
        return false;
      }
      var read := store.ReadLocked();
      if read.Err? {
        return false;
      }
      var folders := read.value.folders;
      var made := RecordedAt(folders, dir);
      if IsGone(fs, dir, DeviceWanted(made)) || LooksEmpty(fs, dir) {
        GoneByName(fs, dir, DeviceWanted(made));
      }
      if IsGone(fs, dir, DeviceWanted(made)) {
        ok := ForgetPath(dir, fault);
        return;
      }
      if made.Some? && LooksEmpty(fs, dir) {
        var at := Located(fs, dir);
        if Spent(budget) || at.None? || !IsEmptyDir(fs, at.value) {
          return false;
        }
        LocatedIsReached(fs, dir);
        RemovalKeepsForm(fs, at.value);
        RemovalIsLess(fs, fs, at.value, at.value);
        fs := Removed(fs, at.value);
        ok := ForgetPath(dir, fault);
        return;
      }
      var folder := FolderAnswer(fs, folders, dir);
      if folder.Err? {
        return false;
      }
      AcceptedMayBeRemoved(fs, folders, dir);
      var removed := RemoveSentinelLast(folder.value, budget);
      if !removed {
        return false;
      }
      ok := store.ChangeRecord(Forget(folder.value), fault);
    }

    /** `set_root`: the default, or nothing, is stored as no setting. */
    method SetStagingRoot(raw: Path, fault: Fault) returns (ok: bool)
      modifies store
      ensures var setting := RootSetting(fs, home, raw);
              && (ok <==> setting.Ok? && fault.NoFault? && Parsed(old(store.file)).Ok?)
              && store.file == if ok then Holds(Changed(Parsed(old(store.file)).value, SetRoot(setting.value)))
                               else old(store.file)
      ensures ok ==>
                var before, after := Parsed(old(store.file)).value, Parsed(store.file).value;
                && after.folders == before.folders
                && (if raw.absolute || raw.parts != []
                    then RootInUse(home, after).Some?
                         && Components(RootInUse(home, after).value) == Components(raw)
                    else after.root == None && RootInUse(home, after) == DefaultRoot(home))
    {
      DefaultIsInHome(home);
      var root := None;
      if raw.absolute || raw.parts != [] {
        if StagingRoot(fs, raw).Err? {
          return false;
        }
        if !IsDefault(home, raw) {
          root := Some(raw);
        }
      }
      ok := store.ChangeRecord(SetRoot(root), fault);
    }

    /** `create_dir_all`: every folder on the way to `root` that is not there,
        links that lead to a folder followed. `at` is where `root` then is. */
    method CreateDirAll(root: Names, budget0: Budget) returns (ok: bool, at: Names, budget: Budget)
      requires WellFormed(fs)
      modifies this`fs
      ensures WellFormed(fs) && OnlyMore(old(fs), fs)
      ensures ok ==> MayMakeAll(old(fs), root) && at == Resolved(old(fs), PathTo(root)).names
      ensures ok ==> IsDir(fs, at) && LeadsTo(fs, root, |root|, at)
      ensures budget0.None? && MayMakeAll(old(fs), root) ==> ok
      ensures budget0.None? ==> budget.None?
    {
      hide WellFormed, OnlyMore, MayMakeAll, LeadsTo, OnTheWay, Lookup, Walk, Nearest, Resolved, HasChild, Added;
      budget := budget0;
      var k := 0;
      at := [];
      StartsAtTheRoot(fs, root);
      while k < |root|
        invariant k <= |root|
        invariant WellFormed(fs) && OnlyMore(old(fs), fs)
        invariant IsDir(fs, at) && LeadsTo(fs, root, k, at)
        invariant fs != old(fs) ==> MayMakeAll(old(fs), root) && OnTheWay(old(fs), root, k, at) && !HasChild(fs, at)
        invariant budget0.None? ==> budget.None?
      {
        var next := at + [root[k]];
        var found := Lookup(fs, PathTo(root[..k + 1]));
        if found.Reached? {
          OneFurther(fs, root, k, at);
          if !IsDir(fs, found.at) {
            FileIsInTheWay(fs, root, k + 1);
            return false, at, budget;
          }
          at := found.at;
        } else {
          if fs == old(fs) {
            WhatIsMissing(fs, root, k, at);
          }
          ChildOf(fs, at, root[k]);
          if next in fs.nodes || Spent(budget) {
            return false, at, budget;
          }
          OneMoreMade(old(fs), fs, root, k, at);
          fs := Added(fs, next, Dir);
          budget := Less(budget);
          at := next;
        }
        k := k + 1;
      }
      AllTheWay(old(fs), fs, root, at);
      ok := true;
    }

    /** The naming loop of `create`: one attempt after another at `base`,
        `base-2`, `base-3`, ... in `root`, as long as something is there. */
    method MakeFirstFree(root: Names, base: string, budget: Budget) returns (made: Option<Names>, n: nat)
      requires WellFormed(fs) && IsDir(fs, root)
      modifies this`fs
      ensures WellFormed(fs) && OnlyMore(old(fs), fs)
      ensures n >= 1 && root + [Attempt(base, n)] !in old(fs).nodes
      ensures forall m | 1 <= m < n :: root + [Attempt(base, m)] in old(fs).nodes
      ensures made == if Spent(budget) then None else Some(root + [Attempt(base, n)])
      ensures fs == if Spent(budget) then old(fs) else Added(old(fs), root + [Attempt(base, n)], Dir)
    {
      hide Decimal, Tried, WellFormed;
      n := 1;
      var folder := root + [base];
      ghost var taken: set<Names> := {};
      NoneTried(fs, root, base);
      while folder in fs.nodes
        invariant fs == old(fs)
        invariant n >= 1 && folder == root + [Attempt(base, n)]
        invariant Tried(fs, root, base, n, taken)
        invariant forall m | 1 <= m < n :: root + [Attempt(base, m)] in fs.nodes
        decreases |fs.nodes.Keys| - n
      {
        OneMoreTried(fs, root, base, n, taken);
        taken := taken + {folder};
        n := n + 1;
        folder := root + [base + "-" + Decimal(n)];
      }
      if Spent(budget) {
        return None, n;
      }
      assert Above(folder) == root;
      AdditionIsMore(fs, fs, folder, Dir);
      fs := Added(fs, folder, Dir);
      return Some(folder), n;
    }

    /** `create`: a folder that was not there, right in the Staging Directory,
        holding its sentinel and nothing else, recorded and accepted. Short of
        that nothing is recorded, and nothing that was there is touched. */
    method Create(what: string, timestamp: string, budget0: Budget, fault: Fault) returns (r: Result<Names>)
      requires WellFormed(fs)
      modifies this`fs, store
      ensures WellFormed(fs) && OnlyMore(old(fs), fs)
      ensures r.Err? ==> store.file == old(store.file)
      ensures r.Ok? ==>
                && Parsed(old(store.file)).Ok? && FolderSlug(what).Ok?
                && var before := Parsed(old(store.file)).value;
                   var made := Made(r.value, DeviceOf(fs, r.value));
                   && store.file == Holds(Changed(before, Add(made)))
                   && r.value !in old(fs).nodes && r.value != []
                   && JustMade(fs, r.value)
                   && FolderAnswer(fs, Changed(before, Add(made)).folders, PathTo(r.value)) == Ok(r.value)
      ensures budget0.None? && fault.NoFault? ==>
                (r.Ok? <==>
                 && FolderSlug(what).Ok? && Parsed(old(store.file)).Ok?
                 && var root := RootInUse(home, Parsed(old(store.file)).value);
                    && root.Some? && StagingRoot(old(fs), root.value).Ok?
                    && MayMakeAll(old(fs), StagingRoot(old(fs), root.value).value.names))
      ensures r.Ok? ==>
                var root := RootInUse(home, Parsed(old(store.file)).value);
                && root.Some? && StagingRoot(old(fs), root.value).Ok?
                && var top := Resolved(old(fs), PathTo(StagingRoot(old(fs), root.value).value.names)).names;
                   exists n :: n >= 1 && r.value == top + [Attempt(FolderName(what, timestamp), n)]
    {
      hide Walk, Resolved, Exists, Lookup, MayMakeAll, StagingRoot, RootInUse, FolderSlug, FolderAnswer, Attempt, WellFormed;
      var slug := FolderSlug(what);
      if slug.Err? {
        return Err(slug.error);
      }
      var read := store.ReadLocked();
      if read.Err? {
        return Err(read.error);
      }
      var setting := RootInUse(home, read.value);
      if setting.None? {
        return Err("no home folder");
      }
      var top := StagingRoot(fs, setting.value);
      if top.Err? {
        return Err(top.error);
      }
      var done, root, budget := CreateDirAll(top.value.names, budget0);
      if !done {
        return Err("could not make the folder");
      }
      ghost var before := fs;
      var made, n := MakeFirstFree(root, FolderName(what, timestamp), budget);
      if made.None? {
        return Err("could not make the folder");
      }
      budget := Less(budget);
      var folder := made.value;
      NothingInNothing(before, folder);
      if Spent(budget) {
        return Err("could not mark the folder");
      }
      assert Above(Marker(folder)) == folder && Marker(folder) != folder;
      AdditionIsMore(old(fs), fs, Marker(folder), File);
      fs := Added(fs, Marker(folder), File);
      var device := DeviceOf(fs, folder);
      var ok := store.ChangeRecord(Add(Made(folder, device)), fault);
      if !ok {
        return Err("could not save the record");
      }
      AddedIsRecorded(read.value, Made(folder, device));
      MarkedIsAccepted(fs, Changed(read.value, Add(Made(folder, device))).folders, folder);
      return Ok(folder);
    }

    /** `forget`, with the path as it is written. */
    method ForgetPath(path: Path, fault: Fault) returns (ok: bool)
      modifies store
      ensures ok <==> fault == NoFault && Parsed(old(store.file)).Ok?
      ensures store.file ==
              if ok then Holds(WithoutTarget(Parsed(old(store.file)).value, NamesOf(path))) else old(store.file)
    {
      var names := NamesOf(path);
      if names.Some? {
        ok := store.ChangeRecord(Forget(names.value), fault);
      } else {
        var read := store.ReadLocked();
        ok := fault == NoFault && read.Ok?;
        if ok {
          store.file := Holds(read.value);
        }
      }
    }
  }

  /** `taken` are the first `n - 1` attempts, all of which are there. */
  ghost predicate Tried(fs: Fs, root: Names, base: string, n: nat, taken: set<Names>) {
    && taken <= fs.nodes.Keys && |taken| == n - 1
    && (forall at <- taken :: exists m :: 1 <= m < n && at == root + [Attempt(base, m)])
  }

  lemma OneMoreTried(fs: Fs, root: Names, base: string, n: nat, taken: set<Names>)
    requires n >= 1 && Tried(fs, root, base, n, taken) && root + [Attempt(base, n)] in fs.nodes
    ensures Tried(fs, root, base, n + 1, taken + {root + [Attempt(base, n)]}) && n <= |fs.nodes.Keys|
  {
    hide Attempt;
    NotYetTaken(root, base, n, taken);
    SubsetIsSmaller(taken + {root + [Attempt(base, n)]}, fs.nodes.Keys);
  }

  lemma NoneTried(fs: Fs, root: Names, base: string)
    ensures Tried(fs, root, base, 1, {})
  {
  }

  /** What a delete forgets of a finishable folder is that folder. */
  lemma FinishableTarget(fs: Fs, file: Content, dir: Path)
    requires WellFormed(fs) && Finishable(fs, file, dir)
    ensures Target(fs, Parsed(file).value.folders, dir) == NamesOf(dir)
  {
    hide WithoutDots, Walk, WellFormed;
    FinishableWays(fs, file, dir);
    WhereNamesLead(fs, file, dir);
  }

  lemma ForgottenIsNotRecorded(folders: seq<Made>, path: Names)
    ensures !Records(Without(folders, path), path)
  {
    forall made <- Without(folders, path) ensures made.path != path {
      WithoutIsExact(folders, path, made);
    }
  }

  /** Removals that end short leave the folder as it was or as a later delete
      can take it up. */
  lemma StillFinishable(before: Fs, fs: Fs, file: Content, dir: Path)
    requires WellFormed(before) && Finishable(before, file, dir)
    requires var folder := NamesOf(dir).value;
             && OnlyLess(before, fs, folder)
             && (folder !in fs.nodes || HasMarker(fs, folder) || IsEmptyDir(fs, folder))
    ensures Finishable(fs, file, dir)
  {
    var folder := NamesOf(dir).value;
    assert |Above(folder)| < |folder|;
    if HasMarker(fs, folder) {
      assert folder < Marker(folder) && HasChild(before, folder);
    }
  }

  /** A delete of a recorded folder, cut short anywhere, by a failure or by the
      end of the process, is finished by the next one that is not. */
  method DeleteThenFinish(folders: StagingFolders, dir: Path, budget: Budget, fault: Fault)
    requires WellFormed(folders.fs) && Finishable(folders.fs, folders.store.file, dir)
    modifies folders`fs, folders.store
    ensures NamesOf(dir).value !in folders.fs.nodes
    ensures folders.store.file ==
            Holds(Changed(Parsed(old(folders.store.file)).value, Forget(NamesOf(dir).value)))
    ensures !Records(folders.store.file.record.folders, NamesOf(dir).value)
  {
    hide Walk, Finishable, Target, MayRemove, Recoverable;
    ghost var fs0, file0 := folders.fs, folders.store.file;
    FinishableTarget(fs0, file0, dir);
    FinishableWays(fs0, file0, dir);
    ForgottenIsNotRecorded(Parsed(file0).value.folders, NamesOf(dir).value);
    var done := folders.Delete(dir, budget, fault);
    if !done {
      if folders.fs != fs0 {
        WhereNamesLead(fs0, file0, dir);
        StillFinishable(fs0, folders.fs, file0, dir);
      }
      FinishableTarget(folders.fs, file0, dir);
      done := folders.Delete(dir, None, NoFault);
    }
  }

  lemma WhereNamesLead(fs: Fs, file: Content, dir: Path)
    requires WellFormed(fs) && Finishable(fs, file, dir)
    ensures Exists(fs, dir) <==> NamesOf(dir).value in fs.nodes
    ensures Exists(fs, dir) ==> Lookup(fs, dir).at == NamesOf(dir).value
  {
    hide WithoutDots, Walk;
    NamesLead(fs, dir);
    NamesThereOrNot(fs, NamesOf(dir).value);
  }

  function DefaultRoot(home: Option<Path>): Option<Path> {
    match home
    case None => None
    case Some(path) => Some(path.(parts := path.parts + [Name(DEFAULT_ROOT_NAME)]))
  }

  /** The default is the folder of that name in the home folder. */
  lemma DefaultIsInHome(home: Option<Path>)
    ensures home.None? ==> DefaultRoot(home) == None
    ensures home.Some? ==>
              && DefaultRoot(home).Some? && EndsInName(DefaultRoot(home).value)
              && DefaultRoot(home).value.parts[|home.value.parts|] == Name("message-crate")
              && Parent(DefaultRoot(home).value) == home.value
  {
    if home.Some? {
      var path := home.value;
      assert (path.parts + [Name("message-crate")])[..|path.parts|] == path.parts;
    }
  }

  /** `root`: the setting, or the default. */
  function RootInUse(home: Option<Path>, record: Record): Option<Path> {
    if record.root.Some? then record.root else DefaultRoot(home)
  }

  /** What `set_root` stores for `raw`. */
  function RootSetting(fs: Fs, home: Option<Path>, raw: Path): Result<Option<Path>> {
    if !raw.absolute && raw.parts == [] then Ok(None)
    else
      match StagingRoot(fs, raw)
      case Err(e) => Err(e)
      case Ok(_) => Ok(if IsDefault(home, raw) then None else Some(raw))
  }

  /** The default, however it is written. */
  predicate IsDefault(home: Option<Path>, raw: Path) {
    DefaultRoot(home).Some? && Components(DefaultRoot(home).value) == Components(raw)
  }

  lemma NotYetTaken(root: Names, base: string, n: nat, taken: set<Names>)
    requires n >= 1
    requires forall at <- taken :: exists m :: 1 <= m < n && at == root + [Attempt(base, m)]
    ensures root + [Attempt(base, n)] !in taken
  {
    forall at <- taken ensures at != root + [Attempt(base, n)] {
      var m :| 1 <= m < n && at == root + [Attempt(base, m)];
      AttemptsDiffer(base, m, n);
      assert at[|root|] == Attempt(base, m);
    }
  }

  lemma {:induction false} SubsetIsSmaller(a: set<Names>, b: set<Names>)
    requires a <= b
    ensures |a| <= |b|
    decreases a
  {
    if x :| x in a {
      SubsetIsSmaller(a - {x}, b - {x});
    }
  }

  lemma AdditionIsMore(before: Fs, fs: Fs, at: Names, node: Node)
    requires WellFormed(fs) && OnlyMore(before, fs)
    requires at !in fs.nodes && at != [] && IsDir(fs, Above(at))
    ensures WellFormed(Added(fs, at, node)) && OnlyMore(before, Added(fs, at, node))
  {
    AdditionKeepsForm(fs, at, node);
  }

  lemma NothingInNothing(fs: Fs, folder: Names)
    requires WellFormed(fs) && folder !in fs.nodes
    ensures forall name :: folder + [name] !in fs.nodes
  {
    forall name ensures folder + [name] !in fs.nodes {
      assert Above(folder + [name]) == folder;
    }
  }

  lemma AddedIsRecorded(record: Record, made: Made)
    ensures Records(Changed(record, Add(made)).folders, made.path)
  {
    assert made in record.folders + [made];
  }

  lemma NothingLess(fs: Fs, folder: Names)
    ensures OnlyLess(fs, fs, folder)
  {
  }

  lemma NoEntryMore(before: Fs, after: Fs, folder: Names)
    requires OnlyLess(before, after, folder)
    ensures forall name :: folder + [name] in after.nodes ==> folder + [name] in before.nodes
  {
  }

  lemma OnlyLessTwice(a: Fs, b: Fs, c: Fs, folder: Names)
    requires OnlyLess(a, b, folder) && OnlyLess(b, c, folder)
    ensures OnlyLess(a, c, folder)
  {
  }

  /** With nothing else left, taking the sentinel leaves an empty folder. */
  lemma EmptiedOfMarker(before: Fs, fs: Fs, folder: Names)
    requires WellFormed(fs) && HasMarker(fs, folder) && OnlyLess(before, fs, folder)
    requires forall name :: folder + [name] in fs.nodes ==> name == SENTINEL
    ensures var t := Removed(fs, Marker(folder));
            && WellFormed(t) && OnlyLess(before, t, folder) && IsEmptyDir(t, folder)
  {
    OnlyFoldersHaveChildren(fs, Marker(folder));
    RemovalKeepsForm(fs, Marker(folder));
    RemovalIsLess(before, fs, folder, Marker(folder));
    NoChildLeft(Removed(fs, Marker(folder)), folder);
  }

  lemma NoChildLeft(fs: Fs, folder: Names)
    requires forall name :: folder + [name] !in fs.nodes
    ensures !HasChild(fs, folder)
  {
    ChildNamesAre(fs, folder);
  }
}
