/** `scripts/uncovered-functions.py`: one name for every copy of a generic
    function, its argument lists and closures left out. */
module Eraser {
  import opened Text

  // ----- Argument lists ------------------------------------------------------------

  /** What stands between `<` and its `>`: characters, arrows, and lists. */
  datatype Piece = Plain(c: char) | Arrow | Group(body: seq<Piece>)

  function PrintPiece(piece: Piece): string {
    match piece
    case Plain(c) => [c]
    case Arrow => "->"
    case Group(body) => "<" + Print(body) + ">"
  }

  function Print(pieces: seq<Piece>): string {
    if pieces == [] then "" else PrintPiece(pieces[0]) + Print(pieces[1..])
  }

  lemma PrintMore(piece: Piece, more: seq<Piece>)
    ensures Print([piece] + more) == PrintPiece(piece) + Print(more)
  {
    assert ([piece] + more)[1..] == more;
  }

  /** Reads up to the `>` that closes the list, lists inside it first; the rest
      of the text is what follows that `>`. `None` when it is never closed. */
  function ReadList(text: string): (r: Option<(seq<Piece>, string)>)
    ensures r.Some? ==> |r.value.1| < |text|
    decreases |text|
  {
    if text == "" then None
    else if text[0] == '>' then Some(([], text[1..]))
    else if text[0] == '<' then
      match ReadList(text[1..])
      case None => None
      case Some((body, after)) =>
        match ReadList(after)
        case None => None
        case Some((more, rest)) => Some(([Group(body)] + more, rest))
    else
      var piece, used := if "->" <= text then Arrow else Plain(text[0]), if "->" <= text then 2 else 1;
      match ReadList(text[used..])
      case None => None
      case Some((more, rest)) => Some(([piece] + more, rest))
  }

  /** The scanners' loop over a list: counts depth, and takes no `>` after `-`
      for a closer. What is left after the closer, or nothing. */
  function Skip(prev: char, text: string, depth: nat): string
    requires depth > 0
    decreases |text|
  {
    if text == "" then ""
    else if text[0] == '<' then Skip(text[0], text[1..], depth + 1)
    else if text[0] == '>' && prev != '-' then
      if depth == 1 then text[1..] else Skip(text[0], text[1..], depth - 1)
    else Skip(text[0], text[1..], depth)
  }

  /** Counting depth finds the closer that reading the lists finds. */
  lemma {:induction false} SkipReadsTheList(prev: char, text: string, depth: nat)
    requires depth > 0 && (prev == '-' ==> !(">" <= text))
    ensures Skip(prev, text, depth) ==
            match ReadList(text)
            case None => ""
            case Some((_, rest)) => if depth == 1 then rest else Skip('>', rest, depth - 1)
    decreases |text|
  {
    if text == "" || text[0] == '>' {
    } else if text[0] == '<' {
      SkipReadsTheList('<', text[1..], depth + 1);
      var inner := ReadList(text[1..]);
      if inner.Some? {
        SkipReadsTheList('>', inner.value.1, depth);
      }
    } else if "->" <= text {
      assert text[1..][0] == '>' && text[1..][1..] == text[2..];
      SkipReadsTheList('>', text[2..], depth);
    } else {
      SkipReadsTheList(text[0], text[1..], depth);
    }
  }

  /** What was read, printed, is the text again. */
  lemma {:induction false} ReadListPrints(text: string)
    ensures ReadList(text).Some? ==>
              var (pieces, rest) := ReadList(text).value; Print(pieces) + ">" + rest == text
    decreases |text|
  {
    hide Print, PrintPiece;
    if ReadList(text).Some? {
      var (pieces, rest) := ReadList(text).value;
      if text[0] == '>' {
        PrintNothing();
      } else if text[0] == '<' {
        var (body, after) := ReadList(text[1..]).value;
        ReadListPrints(text[1..]);
        ReadListPrints(after);
        var more := ReadList(after).value.0;
        PrintMore(Group(body), more);
        GroupThenMore(body, more, rest);
        assert text == "<" + text[1..];
      } else {
        var piece, used := if "->" <= text then Arrow else Plain(text[0]), if "->" <= text then 2 else 1;
        ReadListPrints(text[used..]);
        var more := ReadList(text[used..]).value.0;
        PrintMore(piece, more);
        OneThenMore(piece, more, rest);
        assert text == text[..used] + text[used..] && text[..used] == PrintPiece(piece) by { PrintOne(piece); }
      }
    }
  }

  lemma PrintNothing()
    ensures Print([]) == ""
  {
  }

  lemma PrintOne(piece: Piece)
    ensures piece.Plain? ==> PrintPiece(piece) == [piece.c]
    ensures piece.Arrow? ==> PrintPiece(piece) == "->"
    ensures piece.Group? ==> PrintPiece(piece) == "<" + Print(piece.body) + ">"
  {
  }

  lemma GroupThenMore(body: seq<Piece>, more: seq<Piece>, rest: string)
    ensures PrintPiece(Group(body)) + Print(more) + ">" + rest ==
            "<" + (Print(body) + ">" + (Print(more) + ">" + rest))
  {
    hide Print;
  }

  lemma OneThenMore(piece: Piece, more: seq<Piece>, rest: string)
    ensures PrintPiece(piece) + Print(more) + ">" + rest == PrintPiece(piece) + (Print(more) + ">" + rest)
  {
    hide Print, PrintPiece;
  }

  /** Pieces whose printed form reads back as themselves. */
  predicate Proper(pieces: seq<Piece>)
    decreases pieces
  {
    pieces == [] ||
    (&& (match pieces[0]
         case Plain(c) => c != '<' && c != '>' && (c == '-' ==> |pieces| > 1)
         case Arrow => true
         case Group(body) => Proper(body))
     && Proper(pieces[1..]))
  }

  /** A list of any depth reads back as it was printed. */
  lemma {:induction false} PrintedListReadsBack(pieces: seq<Piece>, rest: string)
    requires Proper(pieces)
    ensures ReadList(Print(pieces) + ">" + rest) == Some((pieces, rest))
    decreases pieces
  {
    hide Print, PrintPiece, ReadList;
    if pieces == [] {
      PrintNothing();
      assert "" + ">" + rest == ">" + rest && (">" + rest)[1..] == rest;
      ReadClose(rest);
    } else {
      var piece, more := pieces[0], pieces[1..];
      var tail := Print(more) + ">" + rest;
      assert [piece] + more == pieces;
      PrintMore(piece, more);
      PrintedListReadsBack(more, rest);
      PrintOne(piece);
      if piece.Group? {
        PrintedListReadsBack(piece.body, tail);
        GroupThenMore(piece.body, more, rest);
        ReadGroup(Print(piece.body) + ">" + tail, piece.body, tail);
      } else {
        OneThenMore(piece, more, rest);
        if more != [] {
          NoListStartsWithClose(more);
          assert tail[0] == Print(more)[0];
        }
        ReadOne(piece, tail);
      }
    }
  }

  lemma ReadClose(rest: string)
    ensures ReadList(">" + rest) == Some(([], rest))
  {
    assert (">" + rest)[1..] == rest;
  }

  lemma ReadGroup(inner: string, body: seq<Piece>, tail: string)
    requires ReadList(inner) == Some((body, tail)) && ReadList(tail).Some?
    ensures ReadList("<" + inner) == Some(([Group(body)] + ReadList(tail).value.0, ReadList(tail).value.1))
  {
    assert ("<" + inner)[1..] == inner;
  }

  lemma ReadOne(piece: Piece, tail: string)
    requires ReadList(tail).Some?
    requires piece.Arrow? || (piece.Plain? && piece.c != '<' && piece.c != '>' && (piece.c == '-' ==> !(">" <= tail)))
    ensures ReadList(PrintPiece(piece) + tail) ==
            Some(([piece] + ReadList(tail).value.0, ReadList(tail).value.1))
  {
    assert (PrintPiece(piece) + tail)[|PrintPiece(piece)|..] == tail;
  }

  lemma NoListStartsWithClose(pieces: seq<Piece>)
    requires Proper(pieces) && pieces != []
    ensures Print(pieces) != "" && Print(pieces)[0] != '>'
  {
  }

  // ----- Names ---------------------------------------------------------------------

  /** A name: characters that stay, argument lists with what leads to them, and
      at most one list at the end that is never closed. */
  datatype Item = Stays(c: char) | List(lead: string, args: seq<Piece>) | Unclosed(text: string)

  function PrintName(items: seq<Item>): string {
    if items == [] then ""
    else
      (match items[0]
       case Stays(c) => [c]
       case List(lead, args) => lead + "<" + Print(args) + ">"
       case Unclosed(text) => text)
      + PrintName(items[1..])
  }

  /** The name with its lists left out. */
  function Kept(items: seq<Item>): string {
    if items == [] then ""
    else (if items[0].Stays? then [items[0].c] else "") + Kept(items[1..])
  }

  /** Reads a name whose lists follow `::`. */
  function ReadTurbofish(name: string): seq<Item>
    decreases |name|
  {
    if name == "" then []
    else if !("::<" <= name) then [Stays(name[0])] + ReadTurbofish(name[1..])
    else
      match ReadList(name[3..])
      case None => [Unclosed(name)]
      case Some((args, rest)) => [List("::", args)] + ReadTurbofish(rest)
  }

  /** Reads a name whose lists follow a character of a word; `prev` is the
      character before `name`, if there is one. */
  function ReadTypes(isWord: char -> bool, prev: Option<char>, name: string): seq<Item>
    decreases |name|
  {
    if name == "" then []
    else if !(name[0] == '<' && prev.Some? && isWord(prev.value)) then
      [Stays(name[0])] + ReadTypes(isWord, Some(name[0]), name[1..])
    else
      match ReadList(name[1..])
      case None => [Unclosed(name)]
      case Some((args, rest)) => [List("", args)] + ReadTypes(isWord, Some('>'), rest)
  }

  lemma PrintItem(item: Item, more: seq<Item>)
    ensures PrintName([item] + more) ==
            (match item
             case Stays(c) => [c]
             case List(lead, args) => lead + "<" + Print(args) + ">"
             case Unclosed(text) => text) + PrintName(more)
  {
    assert ([item] + more)[1..] == more;
  }

  /** Nothing of a name is lost in reading it. */
  lemma {:induction false} TurbofishPrintsBack(name: string)
    ensures PrintName(ReadTurbofish(name)) == name
    decreases |name|
  {
    hide Print, ReadList, PrintName;
    if name == "" {
      PrintNoName();
    } else if !("::<" <= name) {
      TurbofishPrintsBack(name[1..]);
      PrintItem(Stays(name[0]), ReadTurbofish(name[1..]));
    } else {
      ReadListPrints(name[3..]);
      match ReadList(name[3..]) {
        case None =>
          PrintItem(Unclosed(name), []);
          PrintNoName();
          assert [Unclosed(name)] + [] == [Unclosed(name)] && name + "" == name;
        case Some((args, rest)) =>
          TurbofishPrintsBack(rest);
          PrintItem(List("::", args), ReadTurbofish(rest));
          assert name == "::<" + (Print(args) + ">" + rest);
          assert "::" + "<" + Print(args) + ">" + rest == "::<" + (Print(args) + ">" + rest);
      }
    }
  }

  lemma PrintNoName()
    ensures PrintName([]) == ""
  {
  }

  lemma {:induction false} TypesPrintBack(isWord: char -> bool, prev: Option<char>, name: string)
    ensures PrintName(ReadTypes(isWord, prev, name)) == name
    decreases |name|
  {
    hide Print, ReadList, PrintName;
    if name == "" {
      PrintNoName();
    } else if !(name[0] == '<' && prev.Some? && isWord(prev.value)) {
      TypesPrintBack(isWord, Some(name[0]), name[1..]);
      PrintItem(Stays(name[0]), ReadTypes(isWord, Some(name[0]), name[1..]));
    } else {
      ReadListPrints(name[1..]);
      match ReadList(name[1..]) {
        case None =>
          PrintItem(Unclosed(name), []);
          PrintNoName();
          assert [Unclosed(name)] + [] == [Unclosed(name)] && name + "" == name;
        case Some((args, rest)) =>
          TypesPrintBack(isWord, Some('>'), rest);
          PrintItem(List("", args), ReadTypes(isWord, Some('>'), rest));
          assert name == "<" + (Print(args) + ">" + rest);
          assert "" + "<" + Print(args) + ">" + rest == "<" + (Print(args) + ">" + rest);
      }
    }
  }

  // ----- `strip_generic_args` and `strip_type_generics` ----------------------------

  /** What the first scanner makes of the rest of a name. */
  function StripArgs(name: string): string
    decreases |name|
  {
    if name == "" then ""
    else if "::<" <= name then (SkipShortens('<', name[3..], 1); StripArgs(Skip('<', name[3..], 1)))
    else [name[0]] + StripArgs(name[1..])
  }

  function StripTypes(isWord: char -> bool, prev: Option<char>, name: string): string
    decreases |name|
  {
    if name == "" then ""
    else if name[0] == '<' && prev.Some? && isWord(prev.value) then
      (SkipShortens('<', name[1..], 1); StripTypes(isWord, Some('>'), Skip('<', name[1..], 1)))
    else [name[0]] + StripTypes(isWord, Some(name[0]), name[1..])
  }

  lemma SkipShortens(prev: char, text: string, depth: nat)
    requires depth > 0
    ensures |Skip(prev, text, depth)| <= |text|
    decreases |text|
  {
  }

  /** Every name, at every depth of nesting: the lists are read and left out,
      the rest is kept. */
  lemma {:induction false} StripArgsErases(name: string)
    ensures StripArgs(name) == Kept(ReadTurbofish(name))
    decreases |name|
  {
    if name != "" {
      if "::<" <= name {
        SkipReadsTheList('<', name[3..], 1);
        match ReadList(name[3..]) {
          case None =>
          case Some((args, rest)) =>
            StripArgsErases(rest);
            assert ReadTurbofish(name)[1..] == ReadTurbofish(rest);
        }
      } else {
        StripArgsErases(name[1..]);
      }
    }
  }

  lemma {:induction false} StripTypesErases(isWord: char -> bool, prev: Option<char>, name: string)
    ensures StripTypes(isWord, prev, name) == Kept(ReadTypes(isWord, prev, name))
    decreases |name|
  {
    if name != "" {
      if name[0] == '<' && prev.Some? && isWord(prev.value) {
        SkipReadsTheList('<', name[1..], 1);
        match ReadList(name[1..]) {
          case None =>
          case Some((args, rest)) =>
            StripTypesErases(isWord, Some('>'), rest);
            assert ReadTypes(isWord, prev, name)[1..] == ReadTypes(isWord, Some('>'), rest);
        }
      } else {
        StripTypesErases(isWord, Some(name[0]), name[1..]);
      }
    }
  }

  /** A turbofish of any depth in any place is what goes, and all that goes. */
  lemma {:induction false} TurbofishGoes(before: string, args: seq<Piece>, after: string)
    requires Proper(args)
    requires forall i | 0 <= i < |before| :: !("::<" <= (before + "::<")[i..])
    ensures StripArgs(before + ("::<" + (Print(args) + ">" + after))) == before + StripArgs(after)
    decreases |before|
  {
    hide Print, ReadList, Skip;
    var list := "::<" + (Print(args) + ">" + after);
    if before == "" {
      assert before + list == list && list[3..] == Print(args) + ">" + after;
      PrintedListReadsBack(args, after);
      SkipReadsTheList('<', list[3..], 1);
    } else {
      assert (before + list)[1..] == before[1..] + list;
      forall i | 0 <= i < |before[1..]| ensures !("::<" <= (before[1..] + "::<")[i..]) {
        assert (before[1..] + "::<")[i..] == (before + "::<")[i + 1..];
      }
      TurbofishGoes(before[1..], args, after);
      assert !("::<" <= (before + "::<")[0..]);
      assert (before + list)[..3] == (before + "::<")[..3];
      assert [before[0]] + (before[1..] + StripArgs(after)) == before + StripArgs(after);
    }
  }

  /** After a character of a word a well-formed list of any depth goes whole. */
  lemma TypeListGoes(isWord: char -> bool, word: char, args: seq<Piece>, after: string)
    requires Proper(args) && isWord(word)
    ensures StripTypes(isWord, Some(word), "<" + (Print(args) + ">" + after)) == StripTypes(isWord, Some('>'), after)
  {
    hide Print, ReadList, Skip;
    var list := "<" + (Print(args) + ">" + after);
    assert list[1..] == Print(args) + ">" + after;
    PrintedListReadsBack(args, after);
    SkipReadsTheList('<', list[1..], 1);
  }

  /** At the start of a name, or after anything else, an angle bracket stays: the
      wrapper of a qualified path is kept. So does every other character. */
  lemma WrapperStays(isWord: char -> bool, prev: Option<char>, c: char, after: string)
    requires c == '<' ==> prev.None? || !isWord(prev.value)
    ensures StripTypes(isWord, prev, [c] + after) == [c] + StripTypes(isWord, Some(c), after)
  {
    assert ([c] + after)[1..] == after;
  }

  /** The inner loop of the first scanner: from the `<` at `start` to the index
      of its closer, or to the end. */
  method FindClose(name: string, start: nat) returns (j: nat)
    requires start < |name| && name[start] == '<'
    ensures start <= j <= |name|
    ensures Skip('<', name[start + 1..], 1) == if j < |name| then name[j + 1..] else ""
  {
    ghost var whole := Skip('<', name[start + 1..], 1);
    var depth := 0;
    j := start;
    while j < |name|
      invariant start <= j <= |name|
      invariant j == start ==> depth == 0
      invariant j > start ==> depth > 0 && Skip(name[j - 1], name[j..], depth) == whole
    {
      assert name[j..][1..] == name[j + 1..];
      if name[j] == '<' {
        depth := depth + 1;
      } else if name[j] == '>' && name[j - 1] != '-' {
        depth := depth - 1;
        if depth == 0 {
          break;
        }
      }
      j := j + 1;
    }
  }

  /** What the first scanner has still to add, at `i`. */
  function RestOfArgs(name: string, i: nat): string {
    if i <= |name| then StripArgs(name[i..]) else ""
  }

  lemma ArgsAtTheEnds(name: string, i: nat)
    ensures RestOfArgs(name, 0) == StripArgs(name)
    ensures i >= |name| ==> RestOfArgs(name, i) == ""
  {
    assert name[0..] == name;
  }

  /** How the first scanner takes a list, and how it takes a character. */
  lemma ArgsGo(name: string, i: nat, j: nat)
    requires i <= |name| && "::<" <= name[i..] && i + 2 < |name| && j <= |name|
    requires Skip('<', name[i + 3..], 1) == if j < |name| then name[j + 1..] else ""
    ensures RestOfArgs(name, i) == RestOfArgs(name, j + 1)
  {
    assert name[i..][3..] == name[i + 3..] && StripArgs("") == "";
  }

  lemma ArgsKeep(name: string, i: nat)
    requires i < |name| && !("::<" <= name[i..])
    ensures RestOfArgs(name, i) == [name[i]] + RestOfArgs(name, i + 1)
  {
    assert name[i..][1..] == name[i + 1..];
  }

  /** The first scanner as the program runs it. */
  method StripGenericArgs(name: string) returns (out: string)
    ensures out == StripArgs(name)
  {
    hide Skip, StripArgs, RestOfArgs;
    out := "";
    var i := 0;
    ArgsAtTheEnds(name, 0);
    while i < |name|
      invariant 0 <= i <= |name| + 1
      invariant out + RestOfArgs(name, i) == StripArgs(name)
      decreases |name| + 1 - i
    {
      if "::<" <= name[i..] {
        assert name[i + 2] == name[i..][2];
        var j := FindClose(name, i + 2);
        ArgsGo(name, i, j);
        i := j + 1;
      } else {
        ArgsKeep(name, i);
        out := out + [name[i]];
        i := i + 1;
      }
    }
    ArgsAtTheEnds(name, i);
  }

  /** What the second scanner has still to add, at `i` and `depth`. */
  function RestOfTypes(isWord: char -> bool, name: string, i: nat, depth: nat): string
    requires i <= |name| && (depth > 0 ==> i > 0)
  {
    var prev := if i == 0 then None else Some(name[i - 1]);
    if depth == 0 then StripTypes(isWord, prev, name[i..])
    else StripTypes(isWord, Some('>'), Skip(name[i - 1], name[i..], depth))
  }

  lemma RestAtStart(isWord: char -> bool, name: string)
    ensures RestOfTypes(isWord, name, 0, 0) == StripTypes(isWord, None, name)
  {
    assert name[0..] == name;
  }

  lemma RestAtEnd(isWord: char -> bool, name: string, depth: nat)
    requires depth > 0 ==> name != ""
    ensures RestOfTypes(isWord, name, |name|, depth) == ""
  {
  }

  /** How the second scanner takes one character. */
  lemma NextOfTypes(isWord: char -> bool, name: string, i: nat, depth: nat)
    requires i < |name| && (depth > 0 ==> i > 0)
    ensures RestOfTypes(isWord, name, i, depth) ==
            var ch := name[i];
            if depth > 0 then
              RestOfTypes(isWord, name, i + 1,
                          if ch == '<' then depth + 1
                          else if ch == '>' && name[i - 1] != '-' then depth - 1 else depth)
            else if ch == '<' && i > 0 && isWord(name[i - 1]) then RestOfTypes(isWord, name, i + 1, 1)
            else [ch] + RestOfTypes(isWord, name, i + 1, 0)
  {
    assert name[i..][1..] == name[i + 1..];
  }

  /** The second scanner as the program runs it. */
  method StripTypeGenerics(isWord: char -> bool, name: string) returns (out: string)
    ensures out == StripTypes(isWord, None, name)
  {
    hide StripTypes, Skip, RestOfTypes;
    assert name[0..] == name && RestOfTypes(isWord, name, 0, 0) == StripTypes(isWord, None, name) by { RestAtStart(isWord, name); }
    out := "";
    var depth := 0;
    var i := 0;
    while i < |name|
      invariant 0 <= i <= |name| && 0 <= depth && (depth > 0 ==> i > 0)
      invariant out + RestOfTypes(isWord, name, i, depth) == StripTypes(isWord, None, name)
    {
      var ch := name[i];
      NextOfTypes(isWord, name, i, depth);
      if depth > 0 {
        if ch == '<' {
          depth := depth + 1;
        } else if ch == '>' && name[i - 1] != '-' {
          depth := depth - 1;
        }
      } else if ch == '<' && i > 0 && isWord(name[i - 1]) {
        depth := 1;
      } else {
        out := out + [ch];
      }
      i := i + 1;
    }
    RestAtEnd(isWord, name, depth);
  }

  // ----- `function_key` -------------------------------------------------------------

  /** What follows the `}` of a component whose `{` has just gone by, when no
      other brace stands between: the rest of a match of `::\{[^{}]*\}`. */
  function BraceEnd(text: string): (r: Option<string>)
    ensures r.Some? ==> |r.value| < |text|
    decreases |text|
  {
    if text == "" || text[0] == '{' then None
    else if text[0] == '}' then Some(text[1..])
    else BraceEnd(text[1..])
  }

  /** Whether a component starts here. */
  predicate Component(text: string) {
    "::{" <= text && BraceEnd(text[3..]).Some?
  }

  predicate HasComponent(text: string) {
    exists i | 0 <= i <= |text| :: Component(text[i..])
  }

  /** One pass of `sub`: the components, left to right, that do not overlap. */
  function FoldOnce(text: string): string
    decreases |text|
  {
    if text == "" then ""
    else if Component(text) then FoldOnce(BraceEnd(text[3..]).value)
    else [text[0]] + FoldOnce(text[1..])
  }

  /** A pass changes nothing just when there is nothing to fold, and otherwise
      the text gets shorter. */
  lemma {:induction false} PassShortens(text: string)
    ensures |FoldOnce(text)| <= |text|
    ensures HasComponent(text) ==> |FoldOnce(text)| < |text|
    ensures !HasComponent(text) ==> FoldOnce(text) == text
    decreases |text|
  {
    assert text[0..] == text;
    if text != "" {
      if Component(text) {
        PassShortens(BraceEnd(text[3..]).value);
      } else {
        PassShortens(text[1..]);
        forall i | 0 < i <= |text| ensures text[i..] == text[1..][i - 1..] {
        }
        if HasComponent(text) {
          var i :| 0 <= i <= |text| && Component(text[i..]);
          assert Component(text[1..][i - 1..]);
        } else {
          forall i | 0 <= i <= |text[1..]| ensures !Component(text[1..][i..]) {
            assert text[i + 1..] == text[1..][i..];
          }
        }
      }
    }
  }

  function Folded(text: string): string
    decreases |text|
  {
    PassShortens(text);
    if FoldOnce(text) == text then text else Folded(FoldOnce(text))
  }

  lemma {:induction false} NothingLeftToFold(text: string)
    ensures !HasComponent(Folded(text))
    decreases |text|
  {
    PassShortens(text);
    if FoldOnce(text) != text {
      NothingLeftToFold(FoldOnce(text));
    }
  }

  method FunctionKey(isWord: char -> bool, name: string) returns (key: string)
    ensures key == Folded(StripTypes(isWord, None, StripArgs(name)))
    ensures !HasComponent(key)
  {
    var stripped := StripGenericArgs(name);
    key := StripTypeGenerics(isWord, stripped);
    NothingLeftToFold(key);
    while true
      invariant Folded(key) == Folded(StripTypes(isWord, None, StripArgs(name)))
      invariant !HasComponent(Folded(key))
      decreases |key|
    {
      PassShortens(key);
      var folded := FoldOnce(key);
      if folded == key {
        return;
      }
      key := folded;
    }
  }

  // ----- Nested components -----------------------------------------------------------

  /** A name with closures in it, closures in closures included. */
  datatype Bit = Letter(c: char) | Closure(body: seq<Bit>)

  function ShowBit(bit: Bit): string {
    match bit
    case Letter(c) => [c]
    case Closure(body) => "::{" + Show(body) + "}"
  }

  function Show(bits: seq<Bit>): string {
    if bits == [] then "" else ShowBit(bits[0]) + Show(bits[1..])
  }

  /** Braces stand only around closures. */
  predicate Braced(bits: seq<Bit>) {
    bits == [] ||
    ((match bits[0] case Letter(c) => c != '{' && c != '}' case Closure(body) => Braced(body)) && Braced(bits[1..]))
  }

  predicate NoClosure(bits: seq<Bit>) {
    forall bit <- bits :: bit.Letter?
  }

  /** The closures with none inside them taken out. */
  function Pruned(bits: seq<Bit>): seq<Bit> {
    if bits == [] then []
    else
      (match bits[0]
       case Letter(_) => [bits[0]]
       case Closure(body) => if NoClosure(body) then [] else [Closure(Pruned(body))])
      + Pruned(bits[1..])
  }

  /** The letters in no closure. */
  function Letters(bits: seq<Bit>): string {
    if bits == [] then ""
    else (if bits[0].Letter? then [bits[0].c] else "") + Letters(bits[1..])
  }

  /** No `{` where it could belong to a component that starts before `text`. */
  predicate Apart(text: string) {
    (|text| > 0 ==> text[0] != '{') && (|text| > 1 ==> text[1] != '{')
  }

  lemma ShowMore(bit: Bit, more: seq<Bit>)
    ensures Show([bit] + more) == ShowBit(bit) + Show(more)
  {
    assert ([bit] + more)[1..] == more;
  }

  lemma {:induction false} ShownIsApart(bits: seq<Bit>, post: string)
    requires Braced(bits) && Apart(post)
    ensures Apart(Show(bits) + post)
    decreases bits
  {
    if bits == [] {
      assert Show(bits) + post == post;
    } else {
      ShownIsApart(bits[1..], post);
      assert Show(bits) + post == ShowBit(bits[0]) + (Show(bits[1..]) + post);
    }
  }

  /** A closure with none inside ends at its own brace. */
  lemma {:induction false} LeafEnds(body: seq<Bit>, tail: string)
    requires Braced(body) && NoClosure(body)
    ensures BraceEnd(Show(body) + ("}" + tail)) == Some(tail)
    decreases body
  {
    hide BraceEnd, Show, ShowBit;
    if body == [] {
      ShowNothing();
      assert "" + ("}" + tail) == "}" + tail;
      EndsHere(tail);
    } else {
      var bit, more := body[0], body[1..];
      assert bit in body && body == [bit] + more;
      LeafEnds(more, tail);
      ShowMore(bit, more);
      ShowLetter(bit.c);
      assert Show(body) + ("}" + tail) == [bit.c] + (Show(more) + ("}" + tail));
      GoesOn(bit.c, Show(more) + ("}" + tail));
    }
  }

  lemma EndsHere(tail: string)
    ensures BraceEnd("}" + tail) == Some(tail)
  {
    assert ("}" + tail)[1..] == tail;
  }

  lemma GoesOn(c: char, text: string)
    requires c != '{' && c != '}'
    ensures BraceEnd([c] + text) == BraceEnd(text)
  {
    assert ([c] + text)[1..] == text;
  }

  /** One with another inside does not. */
  lemma {:induction false} NestedDoesNotEnd(body: seq<Bit>, tail: string)
    requires Braced(body) && !NoClosure(body)
    ensures BraceEnd(Show(body) + ("}" + tail)) == None
    decreases body
  {
    var text := Show(body) + ("}" + tail);
    var rest := Show(body[1..]) + ("}" + tail);
    assert text == ShowBit(body[0]) + rest;
    if body[0].Letter? {
      assert body == [body[0]] + body[1..];
      NestedDoesNotEnd(body[1..], tail);
      assert text[1..] == rest;
    } else {
      assert text[0] == ':' && text[1] == ':' && text[2] == '{';
      assert text[1..][1..] == text[2..];
      BraceEndColon(text);
      BraceEndColon(text[1..]);
    }
  }

  lemma BraceEndColon(text: string)
    requires text != "" && text[0] == ':'
    ensures BraceEnd(text) == BraceEnd(text[1..])
  {
  }

  /** A pass takes out exactly the innermost closures. */
  lemma {:induction false} PassPrunes(bits: seq<Bit>, post: string)
    requires Braced(bits) && Apart(post)
    ensures FoldOnce(Show(bits) + post) == Show(Pruned(bits)) + FoldOnce(post)
    decreases bits
  {
    hide BraceEnd, Component, FoldOnce, Show, ShowBit;
    if bits == [] {
      ShowNothing();
      assert "" + post == post && "" + FoldOnce(post) == FoldOnce(post);
    } else {
      var bit, more := bits[0], bits[1..];
      var tail := Show(more) + post;
      assert bits == [bit] + more;
      ShowMore(bit, more);
      assert Show(bits) + post == ShowBit(bit) + tail;
      PassPrunes(more, post);
      ShownIsApart(more, post);
      if bit.Letter? {
        ShowLetter(bit.c);
        PassLetter(bit.c, tail);
        ShowMore(bit, Pruned(more));
      } else if NoClosure(bit.body) {
        LeafEnds(bit.body, tail);
        PassLeaf(Show(bit.body) + ("}" + tail), tail);
        ShowClosure(bit.body, tail);
        assert [] + Pruned(more) == Pruned(more);
      } else {
        NestedDoesNotEnd(bit.body, tail);
        PassPrunes(bit.body, "}" + tail);
        PassNested(Show(bit.body) + ("}" + tail));
        PassLetter('}', tail);
        ShowClosure(bit.body, tail);
        ShowClosure(Pruned(bit.body), FoldOnce(tail));
        ShowMore(Closure(Pruned(bit.body)), Pruned(more));
      }
    }
  }

  lemma ShowNothing()
    ensures Show([]) == ""
  {
  }

  lemma ShowLetter(c: char)
    ensures ShowBit(Letter(c)) == [c]
  {
  }

  lemma ShowClosure(body: seq<Bit>, tail: string)
    ensures ShowBit(Closure(body)) + tail == "::{" + (Show(body) + ("}" + tail))
  {
    hide Show;
  }

  lemma PassLetter(c: char, tail: string)
    requires Apart(tail)
    ensures FoldOnce([c] + tail) == [c] + FoldOnce(tail)
  {
    assert ([c] + tail)[1..] == tail;
    assert |tail| > 1 ==> ([c] + tail)[2] == tail[1];
  }

  lemma PassOne(text: string)
    requires text != "" && !Component(text)
    ensures FoldOnce(text) == [text[0]] + FoldOnce(text[1..])
  {
  }

  lemma PassLeaf(inner: string, tail: string)
    requires BraceEnd(inner) == Some(tail)
    ensures FoldOnce("::{" + inner) == FoldOnce(tail)
  {
    assert ("::{" + inner)[3..] == inner;
  }

  lemma PassNested(inner: string)
    requires BraceEnd(inner) == None
    ensures FoldOnce("::{" + inner) == "::{" + FoldOnce(inner)
  {
    hide BraceEnd, FoldOnce;
    var text := "::{" + inner;
    assert text[3..] == inner && text[1..] == ":{" + inner && text[1..][1..] == "{" + inner;
    assert text[1..][1..][1..] == inner;
    PassOne(text);
    PassOne(text[1..]);
    PassOne(text[1..][1..]);
    assert [':'] + ([':'] + (['{'] + FoldOnce(inner))) == "::{" + FoldOnce(inner);
  }

  lemma {:induction false} PruningShortens(bits: seq<Bit>)
    requires Braced(bits)
    ensures Braced(Pruned(bits)) && Letters(Pruned(bits)) == Letters(bits)
    ensures |Show(Pruned(bits))| <= |Show(bits)|
    ensures NoClosure(bits) ==> Pruned(bits) == bits && Show(bits) == Letters(bits)
    ensures !NoClosure(bits) ==> |Show(Pruned(bits))| < |Show(bits)|
    decreases bits
  {
    if bits != [] {
      var more := bits[1..];
      PruningShortens(more);
      assert bits == [bits[0]] + more;
      match bits[0] {
        case Letter(c) =>
          ShowMore(bits[0], Pruned(more));
          assert Pruned(bits)[1..] == Pruned(more);
        case Closure(body) =>
          PruningShortens(body);
          if NoClosure(body) {
            assert [] + Pruned(more) == Pruned(more);
          } else {
            ShowMore(Closure(Pruned(body)), Pruned(more));
            assert Pruned(bits)[1..] == Pruned(more);
          }
      }
    }
  }

  /** Folding to the end takes out every closure, however deep they nest, and
      keeps every other character. */
  lemma {:induction false} FoldingErasesClosures(bits: seq<Bit>)
    requires Braced(bits)
    ensures Folded(Show(bits)) == Letters(bits)
    decreases |Show(bits)|
  {
    hide Component;
    PassPrunes(bits, "");
    PruningShortens(bits);
    assert Show(bits) + "" == Show(bits) && Show(Pruned(bits)) + "" == Show(Pruned(bits));
    if !NoClosure(bits) {
      FoldingErasesClosures(Pruned(bits));
    }
  }
}
