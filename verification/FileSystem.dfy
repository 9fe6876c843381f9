/** A file system of folders, files and symbolic links, as the programs that
    resolve and delete paths see it. */
module FileSystem {
  import opened Text

  /** The names from the root down to something. */
  type Names = seq<string>

  datatype Part = Here | Up | Name(name: string)

  /** A path as it is written: from the root or from the working folder. */
  datatype Path = Path(absolute: bool, parts: seq<Part>)

  datatype Node = Dir | File | Link(target: Path)

  /** Everything there is, by where it really is; the working folder; how many
      links one lookup may follow; and the device of each folder, where the
      operating system reports one. */
  datatype Fs = Fs(nodes: map<Names, Node>, cwd: Names, maxLinks: nat, devices: map<Names, nat>)

  predicate IsDir(fs: Fs, at: Names) {
    at in fs.nodes && fs.nodes[at].Dir?
  }

  function Above(at: Names): Names {
    if at == [] then [] else at[..|at| - 1]
  }

  /** Everything is in a folder, up to the root. */
  predicate WellFormed(fs: Fs) {
    && IsDir(fs, [])
    && forall at <- fs.nodes :: IsDir(fs, Above(at)) || at == []
  }

  /** Something that is there and is not a link. */
  predicate Real(fs: Fs, at: Names) {
    at in fs.nodes && !fs.nodes[at].Link?
  }

  // ----- Looking a path up --------------------------------------------------

  datatype Walked = Reached(at: Names, linksLeft: nat) | Missing | NotADirectory | TooManyLinks

  /** From `at`, follow `todo`, and every link met on the way. */
  function Walk(fs: Fs, at: Names, todo: seq<Part>, links: nat): Walked
    decreases links, |todo|
  {
    if todo == [] then Reached(at, links)
    else if !IsDir(fs, at) then NotADirectory
    else
      match todo[0]
      case Here => Walk(fs, at, todo[1..], links)
      case Up => Walk(fs, Above(at), todo[1..], links)
      case Name(name) =>
        var next := at + [name];
        if next !in fs.nodes then Missing
        else if !fs.nodes[next].Link? then Walk(fs, next, todo[1..], links)
        else if links == 0 then TooManyLinks
        else
          var target := fs.nodes[next].target;
          Walk(fs, if target.absolute then [] else at, target.parts + todo[1..], links - 1)
  }

  function Lookup(fs: Fs, path: Path): Walked {
    if !path.absolute && path.parts == [] then Missing
    else Walk(fs, if path.absolute then [] else fs.cwd, path.parts, fs.maxLinks)
  }

  /** Rust's `Path::exists`: any failure to look it up counts as not there. */
  predicate Exists(fs: Fs, path: Path) {
    Lookup(fs, path).Reached?
  }

  function Parts(names: Names): seq<Part> {
    seq(|names|, i requires 0 <= i < |names| => Name(names[i]))
  }

  /** The path written as the names from the root. */
  function PathTo(names: Names): Path {
    Path(true, Parts(names))
  }

  // ----- Equal paths ----------------------------------------------------------

  /** The parts that are not `.`. */
  function WithoutDots(parts: seq<Part>): seq<Part>
    decreases |parts|
  {
    if parts == [] then []
    else
      var last := |parts| - 1;
      WithoutDots(parts[..last]) + (if parts[last].Here? then [] else [parts[last]])
  }

  /** Rust's `components`, by which it compares paths: a `.` counts only where a
      path from the working folder begins with it. */
  function Components(path: Path): Path {
    if path.absolute || path.parts == [] || !path.parts[0].Here? then path.(parts := WithoutDots(path.parts))
    else path.(parts := [Here] + WithoutDots(path.parts))
  }

  /** The path without its last part. */
  function Parent(path: Path): Path
    requires path.parts != []
  {
    path.(parts := path.parts[..|path.parts| - 1])
  }

  predicate EndsInDot(path: Path) {
    path.parts != [] && path.parts[|path.parts| - 1].Here?
  }

  predicate EndsInName(path: Path) {
    path.parts != [] && path.parts[|path.parts| - 1].Name?
  }

  // ----- What a lookup keeps --------------------------------------------------

  /** A longer path is looked up from where the shorter one leads. */
  lemma {:induction false} WalkOn(fs: Fs, at: Names, a: seq<Part>, b: seq<Part>, links: nat)
    ensures Walk(fs, at, a + b, links) ==
            match Walk(fs, at, a, links)
            case Reached(q, left) => Walk(fs, q, b, left)
            case failed => failed
    decreases links, |a|
  {
    if a == [] {
      assert a + b == b;
    } else if IsDir(fs, at) {
      assert (a + b)[1..] == a[1..] + b;
      match a[0] {
        case Here => WalkOn(fs, at, a[1..], b, links);
        case Up => WalkOn(fs, Above(at), a[1..], b, links);
        case Name(name) =>
          var next := at + [name];
          if next in fs.nodes && fs.nodes[next].Link? && links > 0 {
            var target := fs.nodes[next].target;
            assert target.parts + (a[1..] + b) == (target.parts + a[1..]) + b;
            WalkOn(fs, if target.absolute then [] else at, target.parts + a[1..], b, links - 1);
          } else if next in fs.nodes && !fs.nodes[next].Link? {
            WalkOn(fs, next, a[1..], b, links);
          }
      }
    }
  }

  /** What a lookup comes to when a `.` follows: only a folder has one. */
  function AsFolder(fs: Fs, w: Walked): Walked {
    if w.Reached? && !IsDir(fs, w.at) then NotADirectory else w
  }

  /** A `.` changes nothing about a lookup but that it ends at a folder. */
  lemma {:induction false} DotsAskForFolders(fs: Fs, at: Names, parts: seq<Part>, links: nat)
    ensures Walk(fs, at, parts, links) ==
            var w := Walk(fs, at, WithoutDots(parts), links);
            if parts != [] && parts[|parts| - 1].Here? then AsFolder(fs, w) else w
    decreases |parts|
  {
    if parts != [] {
      hide Walk;
      var rest, part := parts[..|parts| - 1], parts[|parts| - 1];
      assert parts == rest + [part];
      DotsAskForFolders(fs, at, rest, links);
      WalkOn(fs, at, rest, [part], links);
      var w := Walk(fs, at, WithoutDots(rest), links);
      if part.Here? {
        assert WithoutDots(rest) + [] == WithoutDots(rest);
        if w.Reached? {
          OneDot(fs, w.at, w.linksLeft);
        }
      } else {
        WalkOn(fs, at, WithoutDots(rest), [part], links);
        if w.Reached? {
          NoFolderNoPart(fs, w.at, part, w.linksLeft);
        }
      }
    }
  }

  lemma OneDot(fs: Fs, at: Names, links: nat)
    ensures Walk(fs, at, [Here], links) == AsFolder(fs, Reached(at, links))
  {
    assert [Here][1..] == [];
  }

  lemma NoFolderNoPart(fs: Fs, at: Names, part: Part, links: nat)
    ensures !IsDir(fs, at) ==> Walk(fs, at, [part], links) == NotADirectory
  {
  }

  /** What a lookup comes to with more links allowed: the same, unless it had
      run out of them. */
  function WithMore(w: Walked, more: nat): Walked {
    match w
    case Reached(at, left) => Reached(at, left + more)
    case failed => failed
  }

  lemma {:induction false} MoreLinksChangeNothing(fs: Fs, at: Names, todo: seq<Part>, links: nat, more: nat)
    requires !Walk(fs, at, todo, links).TooManyLinks?
    ensures Walk(fs, at, todo, links + more) == WithMore(Walk(fs, at, todo, links), more)
    decreases links, |todo|
  {
    if todo != [] && IsDir(fs, at) {
      match todo[0] {
        case Here => MoreLinksChangeNothing(fs, at, todo[1..], links, more);
        case Up => MoreLinksChangeNothing(fs, Above(at), todo[1..], links, more);
        case Name(name) =>
          var next := at + [name];
          if next in fs.nodes && fs.nodes[next].Link? {
            var target := fs.nodes[next].target;
            MoreLinksChangeNothing(fs, if target.absolute then [] else at, target.parts + todo[1..], links - 1, more);
          } else if next in fs.nodes {
            MoreLinksChangeNothing(fs, next, todo[1..], links, more);
          }
      }
    }
  }

  lemma {:induction false} LinksAreUsedUp(fs: Fs, at: Names, todo: seq<Part>, links: nat)
    ensures Walk(fs, at, todo, links).Reached? ==> Walk(fs, at, todo, links).linksLeft <= links
    decreases links, |todo|
  {
    if todo != [] && IsDir(fs, at) {
      match todo[0] {
        case Here => LinksAreUsedUp(fs, at, todo[1..], links);
        case Up => LinksAreUsedUp(fs, Above(at), todo[1..], links);
        case Name(name) =>
          var next := at + [name];
          if next in fs.nodes && fs.nodes[next].Link? && links > 0 {
            var target := fs.nodes[next].target;
            LinksAreUsedUp(fs, if target.absolute then [] else at, target.parts + todo[1..], links - 1);
          } else if next in fs.nodes && !fs.nodes[next].Link? {
            LinksAreUsedUp(fs, next, todo[1..], links);
          }
      }
    }
  }

  lemma AboveIsReal(fs: Fs, at: Names)
    requires WellFormed(fs)
    ensures IsDir(fs, []) && (at in fs.nodes ==> Real(fs, Above(at)))
  {
  }

  /** A lookup ends at something real. */
  lemma {:induction false} WalkEndsReal(fs: Fs, at: Names, todo: seq<Part>, links: nat)
    requires WellFormed(fs) && (todo == [] ==> Real(fs, at))
    ensures Walk(fs, at, todo, links).Reached? ==> Real(fs, Walk(fs, at, todo, links).at)
    decreases links, |todo|
  {
    AboveIsReal(fs, at);
    hide WellFormed;
    if todo != [] && IsDir(fs, at) {
      match todo[0] {
        case Here => WalkEndsReal(fs, at, todo[1..], links);
        case Up => WalkEndsReal(fs, Above(at), todo[1..], links);
        case Name(name) =>
          var next := at + [name];
          if next in fs.nodes && fs.nodes[next].Link? && links > 0 {
            var target := fs.nodes[next].target;
            WalkEndsReal(fs, if target.absolute then [] else at, target.parts + todo[1..], links - 1);
          } else if next in fs.nodes && !fs.nodes[next].Link? {
            WalkEndsReal(fs, next, todo[1..], links);
          }
      }
    }
  }

  lemma OneName(fs: Fs, at: Names, name: string, links: nat)
    requires IsDir(fs, at) && Real(fs, at + [name])
    ensures Walk(fs, at, [Name(name)], links) == Reached(at + [name], links)
  {
    assert [Name(name)][1..] == [];
  }

  /** The names of something real lead to it and follow no link. */
  lemma {:induction false} WalkReal(fs: Fs, at: Names, links: nat)
    requires WellFormed(fs) && Real(fs, at)
    ensures Walk(fs, [], Parts(at), links) == Reached(at, links)
    decreases |at|
  {
    if at != [] {
      hide Walk;
      var above, name := at[..|at| - 1], at[|at| - 1];
      assert Above(at) == above && above + [name] == at;
      WalkReal(fs, above, links);
      assert Parts(at) == Parts(above) + [Name(name)];
      WalkOn(fs, [], Parts(above), [Name(name)], links);
      OneName(fs, above, name, links);
    }
  }

  lemma ExistsReal(fs: Fs, path: Path)
    requires WellFormed(fs) && Exists(fs, path)
    ensures Real(fs, Lookup(fs, path).at)
  {
    WalkEndsReal(fs, if path.absolute then [] else fs.cwd, path.parts, fs.maxLinks);
  }

  lemma LookupReal(fs: Fs, at: Names)
    requires WellFormed(fs) && Real(fs, at)
    ensures Lookup(fs, PathTo(at)) == Reached(at, fs.maxLinks)
  {
    WalkReal(fs, at, fs.maxLinks);
  }

  /** All that is above something real is a folder. */
  lemma {:induction false} FoldersAbove(fs: Fs, at: Names, k: nat)
    requires WellFormed(fs) && at in fs.nodes && k < |at|
    ensures IsDir(fs, at[..k])
    decreases |at|
  {
    if k < |at| - 1 {
      FoldersAbove(fs, at[..|at| - 1], k);
      assert at[..|at| - 1][..k] == at[..k];
    }
  }

  // ----- One removal or one addition at a time --------------------------------

  predicate HasChild(fs: Fs, at: Names) {
    exists child <- fs.nodes :: |child| == |at| + 1 && at < child
  }

  /** Rust's `is_empty_dir`, at something real. */
  predicate IsEmptyDir(fs: Fs, at: Names) {
    IsDir(fs, at) && !HasChild(fs, at)
  }

  /** What a single `unlink` or `rmdir` may take away. */
  predicate Removable(fs: Fs, at: Names) {
    at in fs.nodes && at != [] && !HasChild(fs, at)
  }

  function Removed(fs: Fs, at: Names): Fs {
    fs.(nodes := fs.nodes - {at})
  }

  function DeviceOf(fs: Fs, at: Names): Option<nat> {
    if at in fs.devices then Some(fs.devices[at]) else None
  }

  /** A new file, or a new folder on the device of the folder it is in. */
  function Added(fs: Fs, at: Names, node: Node): Fs {
    fs.(nodes := fs.nodes[at := node],
        devices := if node.Dir? && Above(at) in fs.devices then fs.devices[at := fs.devices[Above(at)]]
                   else fs.devices - {at})
  }

  lemma RemovalKeepsForm(fs: Fs, at: Names)
    requires WellFormed(fs) && Removable(fs, at)
    ensures WellFormed(Removed(fs, at))
  {
    forall other <- Removed(fs, at).nodes | other != []
      ensures IsDir(Removed(fs, at), Above(other))
    {
      assert Above(other) == at ==> |other| == |at| + 1 && at < other;
    }
  }

  lemma AdditionKeepsForm(fs: Fs, at: Names, node: Node)
    requires WellFormed(fs) && at !in fs.nodes && at != [] && IsDir(fs, Above(at))
    ensures WellFormed(Added(fs, at, node))
  {
  }
}
