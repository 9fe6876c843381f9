/** The output of one started server: two pipes, the two threads reading them,
    and the last lines they keep together (`keep_output`). */
module Output {
  import opened Text

  const OUTPUT_LINES_KEPT: nat := 40

  const LISTENING_LINE := "message-crate-server serve listening on "

  /** One piece of what a server writes: a line, or bytes that are not text,
      where its reader gives up. */
  datatype Item = Line(text: string) | Unreadable

  datatype Stream = Stdout | Stderr

  /** Where a reader is: asking its pipe for a line, holding one it has not
      kept yet (the listening flag is already set for it), or ended. */
  datatype Reader = Asking | Holding(line: string) | Ended

  datatype Pipe = Pipe(written: seq<Item>, taken: nat, closed: bool, reader: Reader)

  /** `lines` is the kept tail and `listened` the flag; `kept` is the history of
      every line ever kept, with the pipe it came from. */
  datatype Pipes = Pipes(stdout: Pipe, stderr: Pipe, lines: seq<string>, listened: bool,
                         kept: seq<(Stream, string)>)

  const NEW_PIPE := Pipe([], 0, false, Asking)
  const NEW_PIPES := Pipes(NEW_PIPE, NEW_PIPE, [], false, [])

  function Of(p: Pipes, s: Stream): Pipe {
    if s.Stdout? then p.stdout else p.stderr
  }

  function With(p: Pipes, s: Stream, pipe: Pipe): Pipes {
    if s.Stdout? then p.(stdout := pipe) else p.(stderr := pipe)
  }

  // ----- Steps: the server, and each reader ---------------------------------

  function Write(p: Pipes, s: Stream, item: Item): Pipes {
    if Of(p, s).closed then p
    else With(p, s, Of(p, s).(written := Of(p, s).written + [item]))
  }

  /** The server ended, or was killed. */
  function Close(p: Pipes): Pipes {
    p.(stdout := p.stdout.(closed := true), stderr := p.stderr.(closed := true))
  }

  /** A reader takes what its pipe has next. With nothing there it waits, or
      ends once the pipe is closed. */
  function Take(p: Pipes, s: Stream): Pipes {
    var pipe := Of(p, s);
    if !pipe.reader.Asking? then p
    else if pipe.taken < |pipe.written| then
      var next := pipe.(taken := pipe.taken + 1);
      match pipe.written[pipe.taken]
      case Line(text) =>
        With(p, s, next.(reader := Holding(text)))
          .(listened := p.listened || StartsWith(text, LISTENING_LINE))
      case Unreadable => With(p, s, next.(reader := Ended))
    else if pipe.closed then With(p, s, pipe.(reader := Ended))
    else p
  }

  /** One more line in a deque that keeps at most `OUTPUT_LINES_KEPT`. */
  function Push(lines: seq<string>, line: string): seq<string> {
    (if |lines| == OUTPUT_LINES_KEPT then lines[1..] else lines) + [line]
  }

  /** A reader keeps the line it holds, under the deque's lock. */
  function Keep(p: Pipes, s: Stream): Pipes {
    if !Of(p, s).reader.Holding? then p
    else
      var line := Of(p, s).reader.line;
      With(p, s, Of(p, s).(reader := Asking))
        .(lines := Push(p.lines, line), kept := p.kept + [(s, line)])
  }

  // ----- What the steps keep -------------------------------------------------

  function LastLines(lines: seq<string>): seq<string> {
    if |lines| <= OUTPUT_LINES_KEPT then lines else lines[|lines| - OUTPUT_LINES_KEPT..]
  }

  /** The lines of `items` up to the first one that is not text. */
  function Readable(items: seq<Item>): seq<string> {
    if items == [] || items[0].Unreadable? then []
    else [items[0].text] + Readable(items[1..])
  }

  function Texts(kept: seq<(Stream, string)>): seq<string> {
    seq(|kept|, i requires 0 <= i < |kept| => kept[i].1)
  }

  /** The kept lines that came from one pipe, in order. */
  function From(kept: seq<(Stream, string)>, s: Stream): seq<string> {
    if kept == [] then []
    else From(kept[..|kept| - 1], s) + (if kept[|kept| - 1].0 == s then [kept[|kept| - 1].1] else [])
  }

  /** Every line the reader of `s` has taken from its pipe. */
  function TakenLines(p: Pipes, s: Stream): seq<string> {
    From(p.kept, s) + (if Of(p, s).reader.Holding? then [Of(p, s).reader.line] else [])
  }

  predicate AnyListening(lines: seq<string>) {
    exists line <- lines :: StartsWith(line, LISTENING_LINE)
  }

  predicate AllText(items: seq<Item>) {
    forall item <- items :: item.Line?
  }

  predicate PipeInv(p: Pipes, s: Stream) {
    var pipe := Of(p, s);
    && pipe.taken <= |pipe.written|
    && TakenLines(p, s) == Readable(pipe.written[..pipe.taken])
    && (if pipe.reader.Ended?
        then !AllText(pipe.written[..pipe.taken]) || (pipe.closed && pipe.taken == |pipe.written|)
        else AllText(pipe.written[..pipe.taken]))
  }

  predicate FlagInv(p: Pipes) {
    p.listened <==> AnyListening(TakenLines(p, Stdout)) || AnyListening(TakenLines(p, Stderr))
  }

  predicate PipesInv(p: Pipes) {
    && p.lines == LastLines(Texts(p.kept))
    && PipeInv(p, Stdout)
    && PipeInv(p, Stderr)
    && FlagInv(p)
  }

  lemma {:induction false} ReadableAppend(items: seq<Item>, more: seq<Item>)
    ensures Readable(items + more) ==
            if AllText(items) then Readable(items) + Readable(more) else Readable(items)
    decreases |items|
  {
    if items == [] {
      assert items + more == more;
    } else {
      assert (items + more)[1..] == items[1..] + more;
      ReadableAppend(items[1..], more);
      assert forall x :: x in items <==> x == items[0] || x in items[1..];
      if items[0].Line? {
        var head := [items[0].text];
        assert head + (Readable(items[1..]) + Readable(more)) == head + Readable(items[1..]) + Readable(more);
      }
    }
  }

  lemma PushIsLastLines(lines: seq<string>, line: string)
    ensures Push(LastLines(lines), line) == LastLines(lines + [line])
  {
  }

  lemma WriteKeepsInv(p: Pipes, s: Stream, item: Item)
    requires PipesInv(p)
    ensures PipesInv(Write(p, s, item))
  {
    var pipe := Of(p, s);
    assert (pipe.written + [item])[..pipe.taken] == pipe.written[..pipe.taken];
  }

  lemma CloseKeepsInv(p: Pipes)
    requires PipesInv(p)
    ensures PipesInv(Close(p))
  {
  }

  lemma TakeKeepsInv(p: Pipes, s: Stream)
    requires PipesInv(p)
    ensures PipesInv(Take(p, s))
  {
    var pipe := Of(p, s);
    if pipe.reader.Asking? && pipe.taken < |pipe.written| {
      TakeReads(p, s);
    }
  }

  lemma TakeReads(p: Pipes, s: Stream)
    requires PipesInv(p)
    requires Of(p, s).reader.Asking? && Of(p, s).taken < |Of(p, s).written|
    ensures PipesInv(Take(p, s))
  {
    var q := Take(p, s);
    var other := if s.Stdout? then Stderr else Stdout;
    TakeReadsPipe(p, s);
    assert Of(q, other) == Of(p, other) && TakenLines(q, other) == TakenLines(p, other);
    var item := Of(p, s).written[Of(p, s).taken];
    if item.Line? {
      OneMoreLine(TakenLines(p, s), item.text);
    }
  }

  lemma TakeReadsPipe(p: Pipes, s: Stream)
    requires PipeInv(p, s)
    requires Of(p, s).reader.Asking? && Of(p, s).taken < |Of(p, s).written|
    ensures var item := Of(p, s).written[Of(p, s).taken];
            && PipeInv(Take(p, s), s)
            && TakenLines(Take(p, s), s) == TakenLines(p, s) + (if item.Line? then [item.text] else [])
  {
    TakenMore(p, s);
    hide StartsWith, From, Take, TakenLines;
    var pipe := Of(p, s);
    var item := pipe.written[pipe.taken];
    var before := pipe.written[..pipe.taken];
    assert pipe.written[..pipe.taken + 1] == before + [item];
    ReadableAppend(before, [item]);
    assert Readable([item]) == if item.Line? then [item.text] else [];
    assert AllText(before + [item]) <==> AllText(before) && item.Line? by {
      assert forall x :: x in before + [item] <==> x in before || x == item;
    }
  }

  lemma TakenMore(p: Pipes, s: Stream)
    requires Of(p, s).reader.Asking? && Of(p, s).taken < |Of(p, s).written|
    ensures var item := Of(p, s).written[Of(p, s).taken];
            && Of(Take(p, s), s) == Of(p, s).(taken := Of(p, s).taken + 1,
                                              reader := if item.Line? then Holding(item.text) else Ended)
            && TakenLines(Take(p, s), s) == TakenLines(p, s) + (if item.Line? then [item.text] else [])
  {
    hide StartsWith, From;
    assert From(Take(p, s).kept, s) == From(p.kept, s);
  }

  lemma OneMoreLine(lines: seq<string>, line: string)
    ensures AnyListening(lines + [line]) <==> AnyListening(lines) || StartsWith(line, LISTENING_LINE)
  {
    assert forall x :: x in lines + [line] <==> x in lines || x == line;
  }

  lemma KeepKeepsInv(p: Pipes, s: Stream)
    requires PipesInv(p)
    ensures PipesInv(Keep(p, s))
  {
    if Of(p, s).reader.Holding? {
      var line := Of(p, s).reader.line;
      var q := Keep(p, s);
      assert q.kept[..|q.kept| - 1] == p.kept;
      assert Texts(q.kept) == Texts(p.kept) + [line];
      PushIsLastLines(Texts(p.kept), line);
      assert TakenLines(q, Stdout) == TakenLines(p, Stdout);
      assert TakenLines(q, Stderr) == TakenLines(p, Stderr);
    }
  }

  /** Both readers have ended, so joining them returns. */
  predicate Drained(p: Pipes) {
    p.stdout.reader.Ended? && p.stderr.reader.Ended?
  }

  /** What a watcher reports after joining the readers: the last lines of one
      interleaving of all that both pipes carried up to their first unreadable
      bytes, and a flag that missed no line, evicted ones included. */
  lemma DrainedOutputIsWhole(p: Pipes)
    requires PipesInv(p) && Drained(p)
    ensures p.lines == LastLines(Texts(p.kept))
    ensures From(p.kept, Stdout) == Readable(p.stdout.written)
    ensures From(p.kept, Stderr) == Readable(p.stderr.written)
    ensures p.listened <==>
            AnyListening(Readable(p.stdout.written)) || AnyListening(Readable(p.stderr.written))
  {
    forall s: Stream
      ensures From(p.kept, s) == TakenLines(p, s) == Readable(Of(p, s).written)
    {
      var pipe := Of(p, s);
      assert pipe.written == pipe.written[..pipe.taken] + pipe.written[pipe.taken..];
      ReadableAppend(pipe.written[..pipe.taken], pipe.written[pipe.taken..]);
    }
    assert Of(p, Stdout) == p.stdout && Of(p, Stderr) == p.stderr;
  }

  // ----- The reader as the program runs it -----------------------------------

  lemma ReadOn(stream: seq<Item>, i: nat, read: seq<string>)
    requires i < |stream| && stream[i].Line?
    ensures read + Readable(stream[i..]) == read + [stream[i].text] + Readable(stream[i + 1..])
  {
    assert stream[i..][1..] == stream[i + 1..];
  }

  /** What the two readers of one server share. */
  class Tail {
    var lines: seq<string>
    var listened: bool

    constructor ()
      ensures lines == [] && !listened
    {
      lines, listened := [], false;
    }

    method KeepLine(line: string)
      modifies this`lines
      ensures lines == Push(old(lines), line)
    {
      if |lines| == OUTPUT_LINES_KEPT {
        lines := lines[1..];
      }
      lines := lines + [line];
    }

    /** `keep_output` with no other reader at work: whatever the pipe carries,
        the last lines up to the first unreadable one are kept. */
    method KeepOutput(stream: seq<Item>)
      requires |lines| <= OUTPUT_LINES_KEPT
      modifies this
      ensures lines == LastLines(old(lines) + Readable(stream))
      ensures listened == (old(listened) || AnyListening(Readable(stream)))
    {
      hide Push, LastLines, Readable, StartsWith, AnyListening;
      var i := 0;
      ghost var read: seq<string> := [];
      NothingRead(lines);
      assert stream[0..] == stream;
      while i < |stream| && stream[i].Line?
        invariant i <= |stream|
        invariant lines == LastLines(old(lines) + read)
        invariant Readable(stream) == read + Readable(stream[i..])
        invariant listened == (old(listened) || AnyListening(read))
      {
        var line := stream[i].text;
        if StartsWith(line, LISTENING_LINE) {
          listened := true;
        }
        OneMoreLine(read, line);
        ReadOn(stream, i, read);
        PushIsLastLines(old(lines) + read, line);
        KeepLine(line);
        assert old(lines) + read + [line] == old(lines) + (read + [line]);
        read := read + [line];
        i := i + 1;
      }
      NothingMore(stream, i);
      assert read + [] == read;
    }
  }

  lemma NothingRead(lines: seq<string>)
    requires |lines| <= OUTPUT_LINES_KEPT
    ensures lines == LastLines(lines + []) && !AnyListening([])
  {
    assert lines + [] == lines;
  }

  lemma NothingMore(stream: seq<Item>, i: nat)
    requires i <= |stream| && (i < |stream| ==> stream[i].Unreadable?)
    ensures Readable(stream[i..]) == []
  {
  }
}
