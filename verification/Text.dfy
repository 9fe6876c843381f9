/** What the rest of the model needs of options, results and text. */
module Text {

  datatype Option<+T> = None | Some(value: T)

  datatype Result<+T> = Ok(value: T) | Err(error: string)

  /** Rust's `str::starts_with`, Python's `str.startswith`. */
  predicate StartsWith(s: string, prefix: string) {
    prefix <= s
  }

  /** Rust's `str::contains`. */
  predicate Contains(s: string, part: string) {
    exists i | 0 <= i <= |s| :: part <= s[i..]
  }

  /** Rust's `join` with a newline between the lines. */
  function JoinLines(lines: seq<string>): string {
    if |lines| == 0 then ""
    else if |lines| == 1 then lines[0]
    else lines[0] + "\n" + JoinLines(lines[1..])
  }

  /** Somewhere in the text is the part, whatever stands before and after it. */
  lemma ContainsIsAnywhere(s: string, part: string)
    ensures Contains(s, part) <==> exists before, after :: s == before + part + after
  {
    if Contains(s, part) {
      var i :| 0 <= i <= |s| && part <= s[i..];
      assert s == s[..i] + part + s[i + |part|..];
    }
    if before, after :| s == before + part + after {
      assert s[|before|..] == part + after;
    }
  }

  /** The lines of a text, at every newline. */
  function LinesOf(text: string): seq<string>
    decreases |text|
  {
    if text == "" then [""]
    else
      var rest := LinesOf(text[1..]);
      if text[0] == '\n' then [""] + rest
      else if rest == [] then [[text[0]]] else [[text[0]] + rest[0]] + rest[1..]
  }

  /** Joined lines can be told apart again, if they are lines. */
  lemma {:induction false} JoinedLinesComeApart(lines: seq<string>)
    requires lines != [] && forall line <- lines :: '\n' !in line
    ensures LinesOf(JoinLines(lines)) == lines
    decreases |lines|
  {
    if |lines| == 1 {
      OneLineFirst(lines[0], "", []);
      assert lines[0] + "" == lines[0];
      assert lines == [lines[0] + ""] + [];
    } else {
      JoinedLinesComeApart(lines[1..]);
      var rest := "\n" + JoinLines(lines[1..]);
      assert rest[1..] == JoinLines(lines[1..]);
      assert LinesOf(rest) == [""] + lines[1..];
      OneLineFirst(lines[0], rest, lines[1..]);
      assert lines[0] + "\n" + JoinLines(lines[1..]) == lines[0] + rest;
      assert [lines[0] + ""] + lines[1..] == lines by { assert lines[0] + "" == lines[0]; }
    }
  }

  lemma {:induction false} OneLineFirst(line: string, rest: string, more: seq<string>)
    requires '\n' !in line && LinesOf(rest) == [""] + more
    ensures LinesOf(line + rest) == [line + ""] + more
    decreases |line|
  {
    if line == "" {
      assert line + rest == rest;
    } else {
      assert (line + rest)[1..] == line[1..] + rest;
      OneLineFirst(line[1..], rest, more);
      assert [line[0]] + (line[1..] + "") == line + "";
    }
  }
}
