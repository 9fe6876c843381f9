/** `src-tauri/src/commands/paths.rs`: where a path leads, whether or not it
    exists yet, and whether that is inside a staging folder. */
module Paths {
  import opened Text
  import opened FileSystem

  /** A path with no `.` and no `..` left in it. */
  datatype Plain = Plain(absolute: bool, names: Names)

  function Written(p: Plain): Path {
    Path(p.absolute, Parts(p.names))
  }

  /** The first `k` names of `p`. */
  function Upto(p: Plain, k: nat): Plain
    requires k <= |p.names|
  {
    p.(names := p.names[..k])
  }

  // ----- `normalize_lexically` ---------------------------------------------------

  /** `.` is nothing and `..` takes back the name before it, if there is one. */
  function Collapsed(parts: seq<Part>): Names
    decreases |parts|
  {
    if parts == [] then []
    else
      var before := Collapsed(parts[..|parts| - 1]);
      match parts[|parts| - 1]
      case Here => before
      case Up => Above(before)
      case Name(name) => before + [name]
  }

  function Normalized(path: Path): Plain {
    Plain(path.absolute, Collapsed(path.parts))
  }

  method NormalizeLexically(path: Path) returns (out: Plain)
    ensures out == Normalized(path)
  {
    out := Plain(path.absolute, []);
    var i := 0;
    while i < |path.parts|
      invariant i <= |path.parts|
      invariant out == Plain(path.absolute, Collapsed(path.parts[..i]))
    {
      assert path.parts[..i + 1][..i] == path.parts[..i];
      match path.parts[i] {
        case Up =>
          if out.names != [] {
            out := out.(names := out.names[..|out.names| - 1]);
          }
        case Here =>
        case Name(name) => out := out.(names := out.names + [name]);
      }
      i := i + 1;
    }
    assert path.parts[..i] == path.parts;
  }

  lemma {:induction false} CollapsedNames(parts: seq<Part>, names: Names)
    ensures Collapsed(parts + Parts(names)) == Collapsed(parts) + names
    decreases |names|
  {
    if names == [] {
      assert parts + Parts(names) == parts;
    } else {
      hide Collapsed;
      var last := |names| - 1;
      CollapsedNames(parts, names[..last]);
      var before := parts + Parts(names[..last]);
      assert parts + Parts(names) == before + [Name(names[last])];
      CollapsedName(before, names[last]);
      assert Collapsed(parts) + names[..last] + [names[last]] == Collapsed(parts) + names;
    }
  }

  lemma CollapsedName(parts: seq<Part>, name: string)
    ensures Collapsed(parts + [Name(name)]) == Collapsed(parts) + [name]
  {
    assert (parts + [Name(name)])[..|parts|] == parts;
  }

  /** Collapsing twice is collapsing once. */
  lemma NormalizingIsStable(path: Path)
    ensures Normalized(Written(Normalized(path))) == Normalized(path)
  {
    CollapsedNames([], Collapsed(path.parts));
    assert [] + Parts(Collapsed(path.parts)) == Parts(Collapsed(path.parts));
  }

  // ----- `resolve_on_disk` --------------------------------------------------------

  /** How many names of `p`, at most `k`, its nearest existing ancestor has. */
  function Nearest(fs: Fs, p: Plain, k: nat): Option<nat>
    requires k <= |p.names|
    decreases k
  {
    if Exists(fs, Written(Upto(p, k))) then Some(k)
    else if k == 0 then None
    else Nearest(fs, p, k - 1)
  }

  /** The nearest existing ancestor in the form the file system gives it, and
      the missing names after it. */
  function Resolved(fs: Fs, path: Path): Plain {
    var p := Normalized(path);
    match Nearest(fs, p, |p.names|)
    case None => p
    case Some(k) =>
      (NearestExists(fs, p, |p.names|);
       Plain(true, Lookup(fs, Written(Upto(p, k))).at + p.names[k..]))
  }

  lemma NearestExists(fs: Fs, p: Plain, k: nat)
    requires k <= |p.names|
    ensures Nearest(fs, p, k).Some? ==>
              && Nearest(fs, p, k).value <= k
              && Exists(fs, Written(Upto(p, Nearest(fs, p, k).value)))
    ensures forall i | 0 <= i <= k && Exists(fs, Written(Upto(p, i))) ::
              Nearest(fs, p, k).Some? && i <= Nearest(fs, p, k).value
    decreases k
  {
    if k > 0 && !Exists(fs, Written(Upto(p, k))) {
      NearestExists(fs, p, k - 1);
    }
  }

  /** `Resolved`, once the nearest existing ancestor is known. */
  lemma ResolvedFrom(fs: Fs, path: Path, k: nat)
    requires var p := Normalized(path); Nearest(fs, p, |p.names|) == Some(k)
    ensures var p := Normalized(path);
            && k <= |p.names| && Exists(fs, Written(Upto(p, k)))
            && Resolved(fs, path) == Plain(true, Lookup(fs, Written(Upto(p, k))).at + p.names[k..])
  {
    hide Nearest, Walk;
    NearestExists(fs, Normalized(path), |Normalized(path).names|);
  }

  function Reversed(names: Names): Names
    decreases |names|
  {
    if names == [] then [] else [names[|names| - 1]] + Reversed(names[..|names| - 1])
  }

  lemma OneUp(fs: Fs, p: Plain, k: nat, missing: Names)
    requires 0 < k <= |p.names| && !Exists(fs, Written(Upto(p, k)))
    requires p.names == p.names[..k] + Reversed(missing)
    ensures Nearest(fs, p, k) == Nearest(fs, p, k - 1)
    ensures p.names == p.names[..k - 1] + Reversed(missing + [p.names[k - 1]])
  {
    hide Walk, Lookup, Exists, Reversed;
    ReversedGrows(missing, p.names[k - 1]);
    assert p.names[..k] == p.names[..k - 1] + [p.names[k - 1]];
  }

  lemma ReversedGrows(missing: Names, name: string)
    ensures Reversed(missing + [name]) == [name] + Reversed(missing)
  {
    assert (missing + [name])[..|missing|] == missing;
  }

  /** Moves up until something exists, the names passed kept for later. */
  method ResolveOnDisk(fs: Fs, path: Path) returns (r: Result<Plain>)
    ensures r == Ok(Resolved(fs, path))
  {
    hide Walk, Lookup, Reversed, Collapsed;
    var normalized := NormalizeLexically(path);
    var existing := normalized;
    var missing: Names := [];
    assert Upto(normalized, |normalized.names|) == normalized;
    assert normalized.names == normalized.names + Reversed(missing) by { ReversedNothing(); }
    while !Exists(fs, Written(existing))
      invariant |existing.names| <= |normalized.names|
      invariant existing == Upto(normalized, |existing.names|)
      invariant normalized.names == existing.names + Reversed(missing)
      invariant Nearest(fs, normalized, |normalized.names|) == Nearest(fs, normalized, |existing.names|)
      decreases |existing.names|
    {
      if existing.names == [] {
        return Ok(normalized);
      }
      var last := |existing.names| - 1;
      OneUp(fs, normalized, last + 1, missing);
      missing := missing + [existing.names[last]];
      existing := existing.(names := existing.names[..last]);
    }
    var found := Lookup(fs, Written(existing));
    if !found.Reached? {
      return Err("it went away");
    }
    var resolved := Extended(found.at, missing);
    assert normalized.names[|existing.names|..] == Reversed(missing);
    ResolvedFrom(fs, path, |existing.names|);
    return Ok(Plain(true, resolved));
  }

  lemma ReversedNothing()
    ensures Reversed([]) == []
  {
  }

  /** `resolved.extend(missing.iter().rev())`. */
  method Extended(at: Names, missing: Names) returns (resolved: Names)
    ensures resolved == at + Reversed(missing)
  {
    resolved := at;
    var i := |missing|;
    assert missing[..i] == missing;
    while i > 0
      invariant 0 <= i <= |missing|
      invariant at + Reversed(missing) == resolved + Reversed(missing[..i])
    {
      i := i - 1;
      assert missing[..i + 1][..i] == missing[..i];
      resolved := resolved + [missing[i]];
    }
    assert missing[..i] == [];
  }

  // ----- What resolving keeps ---------------------------------------------------

  /** What does not exist has nothing existing under it. */
  lemma NothingUnderMissing(fs: Fs, p: Plain, k: nat, n: nat)
    requires k <= n <= |p.names| && (k > 0 || p.absolute)
    requires !Exists(fs, Written(Upto(p, k)))
    ensures !Exists(fs, Written(Upto(p, n)))
  {
    var a, b := Parts(p.names[..k]), Parts(p.names[k..n]);
    assert Parts(p.names[..n]) == a + b;
    WalkOn(fs, if p.absolute then [] else fs.cwd, a, b, fs.maxLinks);
  }

  lemma NearestIs(fs: Fs, p: Plain, k: nat)
    requires k < |p.names|
    requires Exists(fs, Written(Upto(p, k))) && !Exists(fs, Written(Upto(p, k + 1)))
    ensures Nearest(fs, p, |p.names|) == Some(k)
  {
    NearestExists(fs, p, |p.names|);
    var found := Nearest(fs, p, |p.names|).value;
    if found > k {
      NothingUnderMissing(fs, p, k + 1, found);
    }
  }

  lemma PlainPath(p: Plain)
    ensures Normalized(Written(p)) == p
  {
    CollapsedNames([], p.names);
    assert [] + Parts(p.names) == Parts(p.names);
  }

  /** The first missing name of a path does not stand, for itself, in the folder
      before it. */
  lemma FirstMissingIsNotReal(fs: Fs, path: Path, k: nat)
    requires WellFormed(fs)
    requires var p := Normalized(path); Nearest(fs, p, |p.names|) == Some(k) && k < |p.names|
    ensures var p := Normalized(path);
            && Exists(fs, Written(Upto(p, k))) && !Exists(fs, Written(Upto(p, k + 1)))
            && !Real(fs, Lookup(fs, Written(Upto(p, k))).at + [p.names[k]])
  {
    hide Walk, Nearest, Lookup, WellFormed, Real, Collapsed;
    var p := Normalized(path);
    NearestExists(fs, p, |p.names|);
    if Real(fs, Lookup(fs, Written(Upto(p, k))).at + [p.names[k]]) {
      RealNameExists(fs, p, k, p.names[k]);
    }
  }

  /** `Resolved` is something real just when nothing of the path is missing. */
  lemma RealWhenNothingIsMissing(fs: Fs, path: Path, k: nat)
    requires WellFormed(fs)
    requires var p := Normalized(path); Nearest(fs, p, |p.names|) == Some(k)
    ensures k <= |Normalized(path).names|
    ensures Real(fs, Resolved(fs, path).names) <==> k == |Normalized(path).names|
  {
    hide Walk, Nearest, Lookup, WellFormed, Real, Resolved, Collapsed;
    var p, r := Normalized(path), Resolved(fs, path);
    ResolvedFrom(fs, path, k);
    var at := Lookup(fs, Written(Upto(p, k))).at;
    if k < |p.names| {
      FirstMissingIsNotReal(fs, path, k);
      assert r.names[..|at| + 1] == at + [p.names[k]];
      if Real(fs, r.names) {
        NameIsReal(fs, r.names, |at| + 1);
      }
    } else {
      ExistsReal(fs, Written(Upto(p, k)));
      assert r.names == at;
    }
  }

  lemma ExistingIsNearest(fs: Fs, path: Path)
    requires Exists(fs, Written(Normalized(path)))
    ensures var p := Normalized(path); Nearest(fs, p, |p.names|) == Some(|p.names|)
    ensures Resolved(fs, path) == Plain(true, Lookup(fs, Written(Normalized(path))).at)
  {
    hide Walk, Lookup, Exists, Collapsed;
    var p := Normalized(path);
    assert Upto(p, |p.names|) == p && p.names[|p.names|..] == [];
    ResolvedHere(fs, path);
  }

  lemma ResolvedHere(fs: Fs, path: Path)
    requires var p := Normalized(path); Exists(fs, Written(Upto(p, |p.names|)))
    ensures var p := Normalized(path);
            Resolved(fs, path) == Plain(true, Lookup(fs, Written(Upto(p, |p.names|))).at + p.names[|p.names|..])
  {
    hide Walk, Lookup, Exists, Collapsed;
  }

  /** A path that exists resolves to where it really is exactly when collapsing
      it first leads to the same place. */
  lemma ExistingResolvesCanonically(fs: Fs, path: Path)
    requires WellFormed(fs) && Exists(fs, path)
    ensures var collapsed := Written(Normalized(path));
            Resolved(fs, path) == Plain(true, Lookup(fs, path).at) <==>
            Exists(fs, collapsed) && Lookup(fs, collapsed).at == Lookup(fs, path).at
  {
    hide Walk, Nearest, Lookup, WellFormed, Real, Collapsed, Resolved;
    var p := Normalized(path);
    ExistsReal(fs, path);
    if Exists(fs, Written(p)) {
      ExistingIsNearest(fs, path);
    } else {
      match Nearest(fs, p, |p.names|) {
        case None => NothingNear(fs, path);
        case Some(k) =>
          RealWhenNothingIsMissing(fs, path, k);
          NearestExists(fs, p, |p.names|);
          assert k == |p.names| ==> Upto(p, k) == p;
      }
    }
  }

  lemma NothingNear(fs: Fs, path: Path)
    requires var p := Normalized(path); Nearest(fs, p, |p.names|) == None
    ensures Resolved(fs, path) == Normalized(path)
    ensures !path.absolute
  {
    hide Walk, Collapsed;
    var p := Normalized(path);
    NearestExists(fs, p, |p.names|);
    assert Written(Upto(p, 0)) == Path(path.absolute, []);
    NothingToFollow(fs);
  }

  lemma NothingToFollow(fs: Fs)
    ensures Lookup(fs, Path(true, [])) == Reached([], fs.maxLinks)
  {
  }

  /** The name of a link, by the path to the folder it is in. */
  predicate NamesALink(fs: Fs, names: Names) {
    && names != []
    && var above := Lookup(fs, PathTo(Above(names)));
       && above.Reached?
       && above.at + [names[|names| - 1]] in fs.nodes
       && fs.nodes[above.at + [names[|names| - 1]]].Link?
  }

  /** No `..` in the path takes back the name of a link. */
  predicate UpsPassNoLink(fs: Fs, parts: seq<Part>) {
    forall i | 0 <= i < |parts| && parts[i].Up? :: !NamesALink(fs, Collapsed(parts[..i]))
  }

  /** Then collapsing a path that exists leaves all of what it means. */
  lemma {:induction false} NormalizingKeepsMeaning(fs: Fs, parts: seq<Part>)
    requires WellFormed(fs) && UpsPassNoLink(fs, parts) && Exists(fs, Path(true, parts))
    ensures Lookup(fs, PathTo(Collapsed(parts))) == Lookup(fs, Path(true, parts))
    decreases |parts|
  {
    hide Walk, WellFormed, NamesALink, Collapsed;
    if parts == [] {
      CollapsedNothing();
      assert Parts([]) == [];
    } else {
      var last := |parts| - 1;
      var rest := parts[..last];
      assert parts == rest + [parts[last]];
      WalkOn(fs, [], rest, [parts[last]], fs.maxLinks);
      forall i | 0 <= i < |rest| && rest[i].Up? ensures !NamesALink(fs, Collapsed(rest[..i])) {
        assert rest[..i] == parts[..i] && parts[i].Up?;
      }
      NormalizingKeepsMeaning(fs, rest);
      LastPartAgrees(fs, parts);
    }
  }

  lemma CollapsedNothing()
    ensures Collapsed([]) == []
  {
  }

  lemma CollapsedLast(parts: seq<Part>)
    requires parts != []
    ensures var before := Collapsed(parts[..|parts| - 1]);
            Collapsed(parts) == match parts[|parts| - 1]
                                case Here => before
                                case Up => Above(before)
                                case Name(name) => before + [name]
  {
  }

  lemma LastPartAgrees(fs: Fs, parts: seq<Part>)
    requires WellFormed(fs) && parts != [] && Exists(fs, Path(true, parts))
    requires var rest := parts[..|parts| - 1];
             && Lookup(fs, Path(true, rest)).Reached?
             && Lookup(fs, PathTo(Collapsed(rest))) == Lookup(fs, Path(true, rest))
             && (parts[|parts| - 1].Up? ==> !NamesALink(fs, Collapsed(rest)))
    ensures Lookup(fs, PathTo(Collapsed(parts))) == Lookup(fs, Path(true, parts))
  {
    hide Walk, WellFormed, Collapsed;
    var last := |parts| - 1;
    var rest, part := parts[..last], parts[last];
    var Reached(at, left) := Lookup(fs, Path(true, rest));
    assert parts == rest + [part];
    WalkOn(fs, [], rest, [part], fs.maxLinks);
    CollapsedLast(parts);
    var before := Collapsed(rest);
    match part {
      case Here => StaysPut(fs, at, Here, left);
      case Name(name) =>
        assert Parts(before + [name]) == Parts(before) + [Name(name)];
        WalkOn(fs, [], Parts(before), [Name(name)], fs.maxLinks);
      case Up =>
        StaysPut(fs, at, Up, left);
        UpTakesBack(fs, before, at, left);
    }
  }

  lemma StaysPut(fs: Fs, at: Names, part: Part, links: nat)
    requires Walk(fs, at, [part], links).Reached? && !part.Name?
    ensures Walk(fs, at, [part], links) == Reached(if part.Up? then Above(at) else at, links)
  {
    assert [part][1..] == [];
  }

  lemma UpTakesBack(fs: Fs, names: Names, at: Names, left: nat)
    requires Lookup(fs, PathTo(names)) == Reached(at, left) && !NamesALink(fs, names)
    ensures Lookup(fs, PathTo(Above(names))) == Reached(Above(at), left)
  {
    if names == [] {
      assert Parts(names) == [];
    } else {
      var above, name := Above(names), names[|names| - 1];
      assert Parts(names) == Parts(above) + [Name(name)];
      WalkOn(fs, [], Parts(above), [Name(name)], fs.maxLinks);
      var w := Lookup(fs, PathTo(above));
      assert [Name(name)][1..] == [];
      assert Above(w.at + [name]) == w.at;
    }
  }

  /** A path that exists, and whose `..` take back no link's name, resolves to
      where it really is, and that form to itself. */
  lemma PassingNoLinkResolvesCanonically(fs: Fs, parts: seq<Part>)
    requires WellFormed(fs) && UpsPassNoLink(fs, parts) && Exists(fs, Path(true, parts))
    ensures var at := Lookup(fs, Path(true, parts)).at;
            && Real(fs, at)
            && Resolved(fs, Path(true, parts)) == Plain(true, at)
            && Resolved(fs, PathTo(at)) == Plain(true, at)
  {
    hide Walk, Lookup, WellFormed, Real, Collapsed, Resolved, UpsPassNoLink;
    NormalizingKeepsMeaning(fs, parts);
    ExistingResolvesCanonically(fs, Path(true, parts));
    var at := Lookup(fs, Path(true, parts)).at;
    ExistsReal(fs, Path(true, parts));
    RealResolvesToItself(fs, at);
  }

  lemma RealResolvesToItself(fs: Fs, at: Names)
    requires WellFormed(fs) && Real(fs, at)
    ensures Resolved(fs, PathTo(at)) == Plain(true, at)
  {
    hide Walk, Lookup, WellFormed, Real, Collapsed, Resolved;
    LookupReal(fs, at);
    PlainPath(Plain(true, at));
    ExistingIsNearest(fs, PathTo(at));
  }

  /** Past a link it may not: `/link/..` is the folder the link leads into, but
      it is collapsed, and so resolved, to the root. */
  lemma NormalizingCanMissALink() returns (fs: Fs, parts: seq<Part>)
    ensures WellFormed(fs) && parts == [Name("link"), Up]
    ensures Lookup(fs, Path(true, parts)) == Reached(["a"], 0)
    ensures Lookup(fs, PathTo(Collapsed(parts))) == Reached([], 1)
    ensures Resolved(fs, Path(true, parts)) == Plain(true, [])
  {
    hide Walk, Exists, Nearest, Resolved;
    var folder, inner := ["a"], ["a", "b"];
    fs := Fs(map[[] := Dir, folder := Dir, inner := Dir, ["link"] := Link(PathTo(inner))], [], 1, map[]);
    parts := [Name("link"), Up];
    assert WellFormed(fs) by {
      assert Above(inner) == folder && Above(folder) == [] && Above(["link"]) == [];
    }
    BackFromALink(fs, inner);
    assert Collapsed(parts) == [] by { assert parts[..1] == [Name("link")] && [Name("link")][..0] == []; }
    LookupReal(fs, []);
    assert Normalized(Path(true, parts)) == Plain(true, []);
    RealExists(fs, []);
    ExistingIsNearest(fs, Path(true, parts));
  }

  lemma BackFromALink(fs: Fs, inner: Names)
    requires WellFormed(fs) && fs.maxLinks == 1 && inner != [] && IsDir(fs, inner)
    requires ["link"] in fs.nodes && fs.nodes[["link"]] == Link(PathTo(inner))
    ensures Lookup(fs, Path(true, [Name("link"), Up])) == Reached(Above(inner), 0)
  {
    assert [] + ["link"] == ["link"] && [Name("link"), Up][1..] == [Up] && [Up][1..] == [];
    WalkReal(fs, inner, 0);
    WalkOn(fs, [], Parts(inner), [Up], 0);
  }

  /** Whether the first missing name of `path` stands, after all, in the real
      form of the folder before it. */
  predicate GaveUpOnLinks(fs: Fs, path: Path) {
    var p := Normalized(path);
    var k := Nearest(fs, p, |p.names|);
    NearestExists(fs, p, |p.names|);
    k.Some? && k.value < |p.names|
    && Exists(fs, PathTo(Lookup(fs, Written(Upto(p, k.value))).at + [p.names[k.value]]))
  }

  /** Only the limit on links does that: the lookup through the links above gave
      up, and without them it does not. */
  lemma GivingUpIsTooManyLinks(fs: Fs, path: Path)
    requires WellFormed(fs) && GaveUpOnLinks(fs, path)
    ensures var p := Normalized(path); var k := Nearest(fs, p, |p.names|);
            && k.Some? && k.value < |p.names|
            && Lookup(fs, Written(Upto(p, k.value + 1))) == TooManyLinks
  {
    hide Walk, Nearest, WellFormed, Collapsed;
    var p := Normalized(path);
    var k := Nearest(fs, p, |p.names|).value;
    NearestExists(fs, p, |p.names|);
    var name, start := p.names[k], if p.absolute then [] else fs.cwd;
    var Reached(at, left) := Lookup(fs, Written(Upto(p, k)));
    assert Parts(p.names[..k + 1]) == Parts(p.names[..k]) + [Name(name)];
    WalkOn(fs, start, Parts(p.names[..k]), [Name(name)], fs.maxLinks);
    LinksAreUsedUp(fs, start, Parts(p.names[..k]), fs.maxLinks);
    ExistsReal(fs, Written(Upto(p, k)));
    WalkReal(fs, at, fs.maxLinks);
    assert Parts(at + [name]) == Parts(at) + [Name(name)];
    WalkOn(fs, [], Parts(at), [Name(name)], fs.maxLinks);
    if !Walk(fs, at, [Name(name)], left).TooManyLinks? {
      MoreLinksChangeNothing(fs, at, [Name(name)], left, fs.maxLinks - left);
    }
  }

  /** Resolving again changes nothing, exactly unless the links ran out. */
  lemma ResolvingIsStable(fs: Fs, path: Path)
    requires WellFormed(fs)
    ensures Resolved(fs, Written(Resolved(fs, path))) == Resolved(fs, path) <==> !GaveUpOnLinks(fs, path)
  {
    hide Walk, Nearest, Lookup, Exists;
    var p := Normalized(path);
    NearestExists(fs, p, |p.names|);
    match Nearest(fs, p, |p.names|) {
      case None => PlainPath(Resolved(fs, path));
      case Some(k) =>
        if GaveUpOnLinks(fs, path) {
          GivingUpMovesOn(fs, path, k);
        } else {
          NotGivingUpStays(fs, path, k);
        }
    }
  }

  lemma NotGivingUpStays(fs: Fs, path: Path, k: nat)
    requires WellFormed(fs) && !GaveUpOnLinks(fs, path)
    requires var p := Normalized(path); Nearest(fs, p, |p.names|) == Some(k)
    ensures Resolved(fs, Written(Resolved(fs, path))) == Resolved(fs, path)
  {
    hide Walk, Nearest, Resolved, Lookup, WellFormed, Collapsed;
    var p, r := Normalized(path), Resolved(fs, path);
    ResolvedFrom(fs, path, k);
    var at := Lookup(fs, Written(Upto(p, k))).at;
    ExistsReal(fs, Written(Upto(p, k)));
    if k < |p.names| {
      assert !Exists(fs, PathTo(at + [p.names[k]]));
    }
    RealIsNearest(fs, r, at, p.names[k..]);
    PlainPath(r);
    ResolvedFrom(fs, Written(r), |at|);
    RealLeadsToItself(fs, r, at);
  }

  /** Real folders, and after them a name that is not there: the folders are what
      is nearest. */
  lemma RealIsNearest(fs: Fs, r: Plain, at: Names, rest: Names)
    requires WellFormed(fs) && Real(fs, at) && r == Plain(true, at + rest)
    requires rest != [] ==> !Exists(fs, PathTo(at + [rest[0]]))
    ensures Nearest(fs, r, |r.names|) == Some(|at|)
  {
    hide Walk, Nearest, Lookup, WellFormed;
    assert Upto(r, |at|) == Plain(true, at);
    RealExists(fs, at);
    if rest != [] {
      assert Upto(r, |at| + 1) == Plain(true, at + [rest[0]]);
      NearestIs(fs, r, |at|);
    } else {
      assert |r.names| == |at|;
      NearestExists(fs, r, |r.names|);
    }
  }

  lemma RealLeadsToItself(fs: Fs, r: Plain, at: Names)
    requires WellFormed(fs) && Real(fs, at) && r.absolute && at <= r.names
    ensures Lookup(fs, Written(Upto(r, |at|))) == Reached(at, fs.maxLinks)
    ensures r == Plain(true, at + r.names[|at|..])
  {
    hide Walk, Lookup, WellFormed;
    assert Upto(r, |at|) == Plain(true, at);
    LookupReal(fs, at);
  }

  lemma RealExists(fs: Fs, at: Names)
    requires WellFormed(fs) && Real(fs, at)
    ensures Exists(fs, Written(Plain(true, at)))
  {
    LookupReal(fs, at);
  }

  /** A resolved path has no link in its existing part, so it cannot start with
      the link that the lookup gave up on. */
  lemma GivingUpMovesOn(fs: Fs, path: Path, k: nat)
    requires WellFormed(fs) && GaveUpOnLinks(fs, path)
    requires var p := Normalized(path); Nearest(fs, p, |p.names|) == Some(k)
    ensures Resolved(fs, Written(Resolved(fs, path))) != Resolved(fs, path)
  {
    hide Walk, Nearest, Lookup, WellFormed, Resolved, Real;
    var p, r := Normalized(path), Resolved(fs, path);
    ResolvedFrom(fs, path, k);
    FirstMissingIsNotReal(fs, path, k);
    var at, name := Lookup(fs, Written(Upto(p, k))).at, p.names[k];
    assert Upto(r, |at| + 1) == Plain(true, at + [name]);
    NearestExists(fs, r, |r.names|);
    var n := Nearest(fs, r, |r.names|).value;
    assert r.names[..n][..|at| + 1] == at + [name];
    if Resolved(fs, Written(r)) == r {
      StaysMeansReal(fs, r, n);
      NameIsReal(fs, r.names[..n], |at| + 1);
    }
  }

  lemma StaysMeansReal(fs: Fs, r: Plain, n: nat)
    requires WellFormed(fs) && r.absolute && n <= |r.names|
    requires Nearest(fs, r, |r.names|) == Some(n) && Resolved(fs, Written(r)) == r
    ensures Real(fs, r.names[..n])
  {
    hide Walk, Nearest, Exists, Lookup;
    PlainPath(r);
    NearestExists(fs, r, |r.names|);
    var found := Lookup(fs, Written(Upto(r, n))).at;
    ExistsReal(fs, Written(Upto(r, n)));
    assert r.names == found + r.names[n..];
    assert |found| == n;
    assert r.names[..n] == found;
  }

  lemma NameIsReal(fs: Fs, at: Names, k: nat)
    requires WellFormed(fs) && Real(fs, at) && k <= |at|
    ensures Real(fs, at[..k])
  {
    if k < |at| {
      FoldersAbove(fs, at, k);
    } else {
      assert at[..k] == at;
    }
  }

  /** A name that stands for itself in a folder is found through any path there. */
  lemma RealNameExists(fs: Fs, p: Plain, k: nat, name: string)
    requires WellFormed(fs) && k < |p.names| && p.names[k] == name
    requires Exists(fs, Written(Upto(p, k)))
    requires Real(fs, Lookup(fs, Written(Upto(p, k))).at + [name])
    ensures Exists(fs, Written(Upto(p, k + 1)))
  {
    hide Walk;
    var at := Lookup(fs, Written(Upto(p, k))).at;
    assert Above(at + [name]) == at;
    assert Parts(p.names[..k + 1]) == Parts(p.names[..k]) + [Name(name)];
    WalkOn(fs, if p.absolute then [] else fs.cwd, Parts(p.names[..k]), [Name(name)], fs.maxLinks);
    OneName(fs, at, name, Lookup(fs, Written(Upto(p, k))).linksLeft);
  }

  /** `name` repeated `n` times. */
  function Times(name: string, n: nat): seq<Part> {
    seq(n, _ => Name(name))
  }

  lemma {:induction false} SelfLinksUseUpTheLimit(fs: Fs, at: Names, n: nat, links: nat)
    requires IsDir(fs, at) && n <= links
    requires at + ["s"] in fs.nodes && fs.nodes[at + ["s"]] == Link(Path(false, [Here]))
    ensures Walk(fs, at, Times("s", n), links) == Reached(at, links - n)
    decreases n
  {
    if n > 0 {
      assert Times("s", n)[1..] == Times("s", n - 1);
      assert [Here] + Times("s", n - 1) == [Here] + Times("s", n)[1..];
      assert ([Here] + Times("s", n - 1))[1..] == Times("s", n - 1);
      SelfLinksUseUpTheLimit(fs, at, n - 1, links - 1);
    }
  }

  /** Folders `r` and `o`, and in `r` two links: `s` to `r` itself and `x` to
      `o`. */
  function TwoLinks(limit: nat): Fs {
    Fs(map[[] := Dir, ["r"] := Dir, ["o"] := Dir,
           ["r", "s"] := Link(Path(false, [Here])), ["r", "x"] := Link(PathTo(["o"]))], [], limit, map[])
  }

  /** `/r/s/.../s/x`, with as many links as are allowed before it comes to `x`. */
  function OneTooMany(limit: nat): Plain {
    Plain(true, ["r"] + seq(limit, _ => "s") + ["x"])
  }

  lemma TwoLinksForm(limit: nat)
    ensures var fs := TwoLinks(limit);
            && WellFormed(fs) && fs.maxLinks == limit
            && IsDir(fs, []) && IsDir(fs, ["r"]) && IsDir(fs, ["o"])
            && ["r"] + ["s"] in fs.nodes && fs.nodes[["r"] + ["s"]] == Link(Path(false, [Here]))
            && ["r"] + ["x"] in fs.nodes && fs.nodes[["r"] + ["x"]] == Link(PathTo(["o"]))
  {
    assert ["r"] + ["s"] == ["r", "s"] && ["r"] + ["x"] == ["r", "x"];
    assert Above(["r"]) == [] && Above(["o"]) == [] && Above(["r", "s"]) == ["r"] && Above(["r", "x"]) == ["r"];
  }

  lemma IntoX(fs: Fs, t: Names, links: nat)
    requires WellFormed(fs) && IsDir(fs, ["r"]) && Real(fs, t)
    requires ["r"] + ["x"] in fs.nodes && fs.nodes[["r"] + ["x"]] == Link(PathTo(t))
    ensures Walk(fs, ["r"], [Name("x")], links) == if links == 0 then TooManyLinks else Reached(t, links - 1)
  {
    var todo := [Name("x")];
    assert todo[1..] == [] && Parts(t) + [] == Parts(t);
    if links > 0 {
      WalkReal(fs, t, links - 1);
    }
    hide WellFormed, Real;
  }

  /** The links run out on the way to `x`, and not on the way from `r`. */
  lemma LinksRunOut(limit: nat)
    requires limit > 0
    ensures var fs, p := TwoLinks(limit), OneTooMany(limit);
            && Lookup(fs, Written(Upto(p, limit + 1))) == Reached(["r"], 0)
            && Lookup(fs, Written(p)) == TooManyLinks
            && Lookup(fs, PathTo(["r"] + ["x"])) == Reached(["o"], limit - 1)
  {
    var fs, p := TwoLinks(limit), OneTooMany(limit);
    TwoLinksForm(limit);
    hide Walk, TwoLinks, WellFormed;
    WalkReal(fs, ["r"], limit);
    SelfLinksUseUpTheLimit(fs, ["r"], limit, limit);
    IntoX(fs, ["o"], 0);
    IntoX(fs, ["o"], limit);
    assert Parts(Upto(p, limit + 1).names) == Parts(["r"]) + Times("s", limit);
    assert Parts(p.names) == (Parts(["r"]) + Times("s", limit)) + [Name("x")];
    assert Parts(["r"] + ["x"]) == Parts(["r"]) + [Name("x")];
    hide Times, Parts;
    WalkOn(fs, [], Parts(["r"]), Times("s", limit), limit);
    WalkOn(fs, [], Parts(["r"]) + Times("s", limit), [Name("x")], limit);
    WalkOn(fs, [], Parts(["r"]), [Name("x")], limit);
  }

  lemma OneTooManyResolves(limit: nat)
    requires limit > 0
    ensures var fs, p := TwoLinks(limit), OneTooMany(limit);
            && Normalized(Written(p)) == p
            && Resolved(fs, Written(p)) == Plain(true, ["r"] + ["x"])
            && GaveUpOnLinks(fs, Written(p))
  {
    hide Walk, Nearest, Resolved, Lookup, WellFormed, TwoLinks;
    var fs, p := TwoLinks(limit), OneTooMany(limit);
    LinksRunOut(limit);
    TwoLinksForm(limit);
    PlainPath(p);
    assert Upto(p, limit + 2) == p;
    NearestIs(fs, p, limit + 1);
    ResolvedFrom(fs, Written(p), limit + 1);
    assert p.names[limit + 1..] == ["x"];
  }

  /** Under every limit on links there is a path that resolves twice to two
      different places. */
  lemma ResolvingCanMoveOn(limit: nat) returns (fs: Fs, path: Path)
    requires limit > 0
    ensures WellFormed(fs) && fs.maxLinks == limit
    ensures Resolved(fs, Written(Resolved(fs, path))) != Resolved(fs, path)
  {
    hide Walk, Nearest, Resolved, Lookup, WellFormed, TwoLinks, GaveUpOnLinks;
    fs, path := TwoLinks(limit), Written(OneTooMany(limit));
    TwoLinksForm(limit);
    OneTooManyResolves(limit);
    ResolvingIsStable(fs, path);
  }

  function Joined(root: Path, names: Names): Path {
    root.(parts := root.parts + Parts(names))
  }

  /** When the first name below `root` does not exist, resolving the path below
      it is resolving `root` and writing the names after it, whatever links
      stand above. */
  lemma MissingNamesComeAfter(fs: Fs, root: Path, rel: Names)
    requires rel != []
    requires !Exists(fs, Written(Normalized(Joined(root, rel[..1]))))
    ensures Resolved(fs, Joined(root, rel)) ==
            Plain(Resolved(fs, root).absolute, Resolved(fs, root).names + rel)
  {
    hide Walk, Nearest, Exists, Lookup;
    CollapsedNames(root.parts, rel);
    CollapsedNames(root.parts, rel[..1]);
    var p, q := Normalized(root), Normalized(Joined(root, rel));
    assert q == Plain(p.absolute, p.names + rel);
    assert Upto(q, |p.names| + 1) == Normalized(Joined(root, rel[..1]));
    NearestOfLonger(fs, p, q);
    var nearest := Nearest(fs, p, |p.names|);
    if nearest.Some? {
      NamesAfter(fs, root, Joined(root, rel), nearest.value, rel);
    }
  }

  lemma NamesAfter(fs: Fs, root: Path, longer: Path, k: nat, rel: Names)
    requires var p := Normalized(root); Normalized(longer) == Plain(p.absolute, p.names + rel)
    requires var p := Normalized(root); Nearest(fs, p, |p.names|) == Some(k)
    requires var q := Normalized(longer); Nearest(fs, q, |q.names|) == Some(k)
    ensures Resolved(fs, longer) == Plain(Resolved(fs, root).absolute, Resolved(fs, root).names + rel)
  {
    hide Walk, Nearest, Resolved;
    var p, q := Normalized(root), Normalized(longer);
    ResolvedFrom(fs, root, k);
    ResolvedFrom(fs, longer, k);
    assert Upto(q, k) == Upto(p, k);
    assert q.names[k..] == p.names[k..] + rel;
    var at := Lookup(fs, Written(Upto(p, k))).at;
    assert at + (p.names[k..] + rel) == at + p.names[k..] + rel;
  }

  lemma NearestOfLonger(fs: Fs, p: Plain, q: Plain)
    requires q.absolute == p.absolute && p.names < q.names
    requires !Exists(fs, Written(Upto(q, |p.names| + 1)))
    ensures Nearest(fs, q, |q.names|) == Nearest(fs, p, |p.names|)
  {
    hide Walk, Nearest, Exists, Lookup;
    var k := |p.names|;
    assert forall i | 0 <= i <= k :: Upto(q, i) == Upto(p, i);
    SameNearest(fs, p, q, k);
    forall i | k < i <= |q.names| ensures !Exists(fs, Written(Upto(q, i))) {
      NothingUnderMissing(fs, q, k + 1, i);
    }
    NearestSkips(fs, q, k, |q.names|);
  }

  lemma {:induction false} SameNearest(fs: Fs, p: Plain, q: Plain, k: nat)
    requires k <= |p.names| && k <= |q.names|
    requires forall i | 0 <= i <= k :: Upto(q, i) == Upto(p, i)
    ensures Nearest(fs, p, k) == Nearest(fs, q, k)
    decreases k
  {
    assert Upto(q, k) == Upto(p, k);
    if k > 0 {
      SameNearest(fs, p, q, k - 1);
    }
  }

  lemma {:induction false} NearestSkips(fs: Fs, p: Plain, k: nat, n: nat)
    requires k <= n <= |p.names|
    requires forall i | k < i <= n :: !Exists(fs, Written(Upto(p, i)))
    ensures Nearest(fs, p, n) == Nearest(fs, p, k)
    decreases n
  {
    if n > k {
      NearestSkips(fs, p, k, n - 1);
    }
  }

  // ----- `resolve_staging_root` and `resolve_openable_path` -----------------------

  /** `resolve_absolute`: something, and from the root. */
  function Absolute(raw: Path): Result<Path> {
    if !raw.absolute && raw.parts == [] then Err("empty")
    else if !raw.absolute then Err("relative")
    else Ok(raw)
  }

  /** The Staging Directory, never the file system's root. */
  function StagingRoot(fs: Fs, raw: Path): Result<Plain> {
    match Absolute(raw)
    case Err(e) => Err(e)
    case Ok(path) =>
      if Resolved(fs, path).names == [] then Err("the root of a drive") else Ok(Resolved(fs, path))
  }

  /** What is answered for a path, whichever folder it is asked for in. */
  function Destination(fs: Fs, path: Path): Plain {
    if Exists(fs, path) then Plain(true, Lookup(fs, path).at) else Resolved(fs, path)
  }

  function Openable(fs: Fs, raw: Path, root: Path): Result<Plain> {
    match Absolute(raw)
    case Err(e) => Err(e)
    case Ok(path) =>
      match StagingRoot(fs, root)
      case Err(e) => Err(e)
      case Ok(top) =>
        var to := Destination(fs, path);
        if top.names <= to.names then Ok(to) else Err("outside the staging folder")
  }

  /** `open_path`: an answer that leads to nothing is refused. */
  function Opened(fs: Fs, answer: Result<Plain>): Result<Plain> {
    match answer
    case Err(e) => Err(e)
    case Ok(to) => if Exists(fs, Written(to)) then answer else Err("nothing exists there yet")
  }

  /** What opens is where its own names say, exactly unless the path did not
      exist and its lookup had given up on links. */
  lemma OpenedIsWhereItSays(fs: Fs, path: Path)
    requires WellFormed(fs) && path.absolute && Exists(fs, Written(Destination(fs, path)))
    ensures var to := Destination(fs, path);
            && (Real(fs, to.names) <==> Exists(fs, path) || !GaveUpOnLinks(fs, path))
            && (Lookup(fs, Written(to)).at == to.names <==> Real(fs, to.names))
  {
    hide Walk, Nearest, Lookup, WellFormed, Real, Resolved, GaveUpOnLinks, Collapsed;
    var to := Destination(fs, path);
    ExistsReal(fs, Written(to));
    if Exists(fs, path) {
      ExistsReal(fs, path);
    } else {
      MissingOpens(fs, path);
    }
    if Real(fs, to.names) {
      DestinationFromTheRoot(fs, path);
      LookupReal(fs, to.names);
    }
  }

  lemma DestinationFromTheRoot(fs: Fs, path: Path)
    requires path.absolute
    ensures Destination(fs, path).absolute
  {
    hide Walk, Lookup;
    var p := Normalized(path);
    NearestExists(fs, p, |p.names|);
  }

  lemma MissingOpens(fs: Fs, path: Path)
    requires WellFormed(fs) && path.absolute && Exists(fs, Written(Resolved(fs, path)))
    ensures Real(fs, Resolved(fs, path).names) <==> !GaveUpOnLinks(fs, path)
  {
    hide Walk, Nearest, Lookup, WellFormed, Real, Resolved, Collapsed;
    var p, r := Normalized(path), Resolved(fs, path);
    match Nearest(fs, p, |p.names|) {
      case None => NothingNear(fs, path);
      case Some(k) =>
        RealWhenNothingIsMissing(fs, path, k);
        ResolvedFrom(fs, path, k);
        if k < |p.names| {
          var at := Lookup(fs, Written(Upto(p, k))).at;
          assert Upto(r, |at| + 1) == Plain(true, at + [p.names[k]]) && Upto(r, |r.names|) == r;
          if !Exists(fs, Written(Upto(r, |at| + 1))) {
            NothingUnderMissing(fs, r, |at| + 1, |r.names|);
          }
        }
    }
  }

  /** An openable path is answered with names below those the staging folder
      resolves to. Once `open_path` has found something there, that is where it
      is, exactly unless the path did not exist and its lookup had given up on
      links. */
  lemma OpenableStaysInside(fs: Fs, raw: Path, root: Path)
    requires WellFormed(fs) && Openable(fs, raw, root).Ok?
    ensures var to := Openable(fs, raw, root).value;
            && raw.absolute && root.absolute && to.absolute
            && Resolved(fs, root).names != [] && Resolved(fs, root).names <= to.names
            && (Opened(fs, Ok(to)).Ok? ==>
                  ((Real(fs, to.names) && Lookup(fs, Written(to)).at == to.names) <==>
                   Exists(fs, raw) || !GaveUpOnLinks(fs, raw)))
            && (Exists(fs, raw) ==>
                  Opened(fs, Ok(to)).Ok? && Lookup(fs, raw).at == to.names
                  && Openable(fs, PathTo(to.names), root) == Ok(to))
  {
    hide Walk, Lookup, WellFormed, Real, Resolved, GaveUpOnLinks;
    var to := Openable(fs, raw, root).value;
    DestinationFromTheRoot(fs, raw);
    if Exists(fs, Written(to)) {
      OpenedIsWhereItSays(fs, raw);
    }
    if Exists(fs, raw) {
      ExistsReal(fs, raw);
      LookupReal(fs, to.names);
    }
  }

  /** An answer that leads to nothing: its real folders end before a name that is
      missing, or that is a link. */
  lemma NothingThereYet(fs: Fs, path: Path)
    requires WellFormed(fs) && path.absolute && !Exists(fs, Written(Destination(fs, path)))
    ensures var to := Destination(fs, path);
            && to == Resolved(fs, path)
            && exists k | 0 <= k < |to.names| ::
                 && Real(fs, to.names[..k])
                 && (to.names[..k + 1] !in fs.nodes || fs.nodes[to.names[..k + 1]].Link?)
  {
    hide Walk, Nearest, Lookup, WellFormed, Resolved, Collapsed;
    var p, to := Normalized(path), Destination(fs, path);
    if Exists(fs, path) {
      ExistsReal(fs, path);
      LookupReal(fs, to.names);
    } else if Nearest(fs, p, |p.names|) == None {
      NothingNear(fs, path);
    } else {
      var k := Nearest(fs, p, |p.names|).value;
      ResolvedFrom(fs, path, k);
      RealWhenNothingIsMissing(fs, path, k);
      ExistsReal(fs, Written(Upto(p, k)));
      var at := Lookup(fs, Written(Upto(p, k))).at;
      if k == |p.names| {
        LookupReal(fs, to.names);
      } else {
        FirstMissingIsNotReal(fs, path, k);
        assert to.names[..|at|] == at && to.names[..|at| + 1] == at + [p.names[k]];
      }
    }
  }

  /** Such a name can be a link that leads out to something not there yet. It is
      openable, and refused by `open_path`. */
  lemma DanglingLinkIsAnswered() returns (fs: Fs, raw: Path, root: Path)
    ensures WellFormed(fs) && fs.maxLinks > 0
    ensures raw == PathTo(["r", "d"]) && root == PathTo(["r"])
    ensures ["r", "d"] in fs.nodes && fs.nodes[["r", "d"]] == Link(PathTo(["o", "x"]))
    ensures Openable(fs, raw, root) == Ok(Plain(true, ["r", "d"]))
    ensures Opened(fs, Openable(fs, raw, root)).Err?
  {
    fs := Fs(map[[] := Dir, ["r"] := Dir, ["r", "d"] := Link(PathTo(["o", "x"]))], [], 1, map[]);
    raw, root := PathTo(["r", "d"]), PathTo(["r"]);
    assert WellFormed(fs) && fs.nodes[["r"]].Dir? by { assert Above(["r"]) == [] && Above(["r", "d"]) == ["r"]; }
    var p, top := Plain(true, ["r", "d"]), Plain(true, ["r"]);
    OffTheLink(fs);
    hide Walk, Nearest, Lookup, WellFormed, Resolved, Collapsed;
    LookupReal(fs, ["r"]);
    PlainPath(p);
    RealResolvesToItself(fs, ["r"]);
    assert Upto(p, 1) == top && Upto(p, 2) == p;
    NearestIs(fs, p, 1);
    ResolvedFrom(fs, raw, 1);
    assert ["r"] + p.names[1..] == ["r", "d"];
  }

  lemma OffTheLink(fs: Fs)
    requires WellFormed(fs) && IsDir(fs, ["r"]) && fs.maxLinks == 1 && ["o"] !in fs.nodes
    requires ["r", "d"] in fs.nodes && fs.nodes[["r", "d"]] == Link(PathTo(["o", "x"]))
    ensures Lookup(fs, PathTo(["r", "d"])) == Missing
  {
    LookupReal(fs, ["r"]);
    assert Parts(["r", "d"]) == Parts(["r"]) + [Name("d")];
    WalkOn(fs, [], Parts(["r"]), [Name("d")], 1);
    assert ["r"] + ["d"] == ["r", "d"] && [Name("d")][1..] == [] && [] + ["o"] == ["o"];
    assert Parts(["o", "x"]) + [] == [Name("o"), Name("x")];
  }

  /** Under every limit on links, what opens can be outside the staging folder. */
  lemma OpenedCanBeOutside(limit: nat) returns (fs: Fs, raw: Path, root: Path)
    requires limit > 0
    ensures WellFormed(fs) && fs.maxLinks == limit && root == PathTo(["r"])
    ensures !Exists(fs, raw) && GaveUpOnLinks(fs, raw)
    ensures Opened(fs, Openable(fs, raw, root)) == Ok(Plain(true, ["r", "x"]))
    ensures Lookup(fs, PathTo(["r", "x"])).Reached? && Lookup(fs, PathTo(["r", "x"])).at == ["o"]
  {
    fs, raw, root := TwoLinks(limit), Written(OneTooMany(limit)), PathTo(["r"]);
    assert ["r"] + ["x"] == ["r", "x"];
    TwoLinksForm(limit);
    hide Walk, Nearest, Resolved, Lookup, WellFormed, TwoLinks, GaveUpOnLinks;
    LinksRunOut(limit);
    OneTooManyResolves(limit);
    RealResolvesToItself(fs, ["r"]);
  }

  /** Real folders and names after them, none of them a link's, are their own
      destination, whether they are there or not. */
  lemma {:induction false} NamesWithoutLinks(fs: Fs, at: Names, rest: Names)
    requires WellFormed(fs) && Real(fs, at)
    requires forall k | 0 <= k <= |rest| :: at + rest[..k] in fs.nodes ==> !fs.nodes[at + rest[..k]].Link?
    ensures Destination(fs, PathTo(at + rest)) == Plain(true, at + rest)
    decreases |rest|
  {
    hide Walk, Nearest, Lookup, WellFormed, Resolved, Collapsed;
    var r := Plain(true, at + rest);
    if rest == [] {
      assert at + rest == at;
      LookupReal(fs, at);
    } else if at + [rest[0]] in fs.nodes {
      assert rest[..1] == [rest[0]];
      forall k | 0 <= k <= |rest[1..]| ensures at + [rest[0]] + rest[1..][..k] == at + rest[..k + 1] {
      }
      NamesWithoutLinks(fs, at + [rest[0]], rest[1..]);
      assert at + [rest[0]] + rest[1..] == at + rest;
    } else {
      NotThere(fs, at, rest[0]);
      assert Upto(r, |at| + 1) == Plain(true, at + [rest[0]]) && Upto(r, |r.names|) == r;
      NothingUnderMissing(fs, r, |at| + 1, |r.names|);
      RealIsNearest(fs, r, at, rest);
      PlainPath(r);
      ResolvedFrom(fs, Written(r), |at|);
      RealLeadsToItself(fs, r, at);
    }
  }

  lemma NotThere(fs: Fs, at: Names, name: string)
    requires WellFormed(fs) && Real(fs, at) && at + [name] !in fs.nodes
    ensures !Exists(fs, PathTo(at + [name]))
  {
    WalkReal(fs, at, fs.maxLinks);
    assert Parts(at + [name]) == Parts(at) + [Name(name)];
    WalkOn(fs, [], Parts(at), [Name(name)], fs.maxLinks);
  }

  /** Any folder but the root can be the Staging Directory, there yet or not, where
      no link is on the way. */
  lemma FoldersCanBeTheRoot(fs: Fs, at: Names, rest: Names)
    requires WellFormed(fs) && Real(fs, at)
    requires forall k | 0 <= k <= |rest| :: at + rest[..k] in fs.nodes ==> !fs.nodes[at + rest[..k]].Link?
    ensures at + rest != [] ==> StagingRoot(fs, PathTo(at + rest)) == Ok(Plain(true, at + rest))
    ensures at + rest == [] ==> StagingRoot(fs, PathTo(at + rest)).Err?
    ensures StagingRoot(fs, Path(false, Parts(at + rest))).Err?
  {
    hide Walk, Nearest, WellFormed, Resolved, Collapsed;
    NamesWithoutLinks(fs, at, rest);
    var p := Plain(true, at + rest);
    PlainPath(p);
    if Exists(fs, PathTo(at + rest)) {
      ExistingIsNearest(fs, PathTo(at + rest));
    }
  }

  /** A path whose first missing name is right below the staging folder is
      openable there, links above the folder or not. */
  lemma MissingBelowRootIsOpenable(fs: Fs, root: Path, rel: Names)
    requires StagingRoot(fs, root).Ok? && rel != []
    requires !Exists(fs, Written(Normalized(Joined(root, rel[..1]))))
    requires !Exists(fs, Joined(root, rel))
    ensures Openable(fs, Joined(root, rel), root) ==
            Ok(Plain(Resolved(fs, root).absolute, Resolved(fs, root).names + rel))
  {
    MissingNamesComeAfter(fs, root, rel);
  }
}
