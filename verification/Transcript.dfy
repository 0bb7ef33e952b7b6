/** The incremental tailer of a growing transcript: reads what is new, emits the
    turns of complete lines, and carries the unterminated rest. */
module Transcript {
  import opened Wrappers

  type Text = string

  const NEWLINE: char := '\n'

  // The complete lines of a text, without their newlines, and what follows the
  // last newline.

  function Lines(s: Text): seq<Text> {
    if s == "" then []
    else if s[|s| - 1] == NEWLINE then Lines(s[..|s| - 1]) + [Rest(s[..|s| - 1])]
    else Lines(s[..|s| - 1])
  }

  function Rest(s: Text): Text {
    if s == "" || s[|s| - 1] == NEWLINE then "" else Rest(s[..|s| - 1]) + [s[|s| - 1]]
  }

  function Unlines(lines: seq<Text>): Text {
    if lines == [] then "" else Unlines(lines[..|lines| - 1]) + lines[|lines| - 1] + [NEWLINE]
  }

  // The turns some lines parse to, in order.
  function Turns<T>(lines: seq<Text>, parse: Text -> Option<T>): seq<T> {
    if lines == [] then []
    else
      var turn := parse(lines[|lines| - 1]);
      Turns(lines[..|lines| - 1], parse) + if turn.Some? then [turn.value] else []
  }

  // Lines and rest are all of the text, split where the newlines are.
  lemma {:induction false} LinesAreTheText(s: Text)
    ensures Unlines(Lines(s)) + Rest(s) == s && NEWLINE !in Rest(s)
    ensures forall i :: 0 <= i < |Lines(s)| ==> NEWLINE !in Lines(s)[i]
  {
    if s != "" {
      var init := s[..|s| - 1];
      LinesAreTheText(init);
      assert s == init + [s[|s| - 1]];
      if s[|s| - 1] == NEWLINE {
        var all := Lines(init) + [Rest(init)];
        assert all[..|Lines(init)|] == Lines(init);
      }
    }
  }

  // Reading on: what was carried over is parsed with what is new.
  lemma {:induction false} ReadOn(a: Text, b: Text)
    ensures Lines(a + b) == Lines(a) + Lines(Rest(a) + b)
    ensures Rest(a + b) == Rest(Rest(a) + b)
  {
    if b == "" {
      assert a + b == a && Rest(a) + b == Rest(a);
      LinesAreTheText(a);
      NoNewline(Rest(a));
    } else {
      var init, c := b[..|b| - 1], b[|b| - 1];
      ReadOn(a, init);
      assert (a + b)[..|a + b| - 1] == a + init;
      assert (Rest(a) + b)[..|Rest(a) + b| - 1] == Rest(a) + init;
    }
  }

  lemma {:induction false} NoNewline(s: Text)
    requires NEWLINE !in s
    ensures Lines(s) == [] && Rest(s) == s
  {
    if s != "" {
      NoNewline(s[..|s| - 1]);
    }
  }

  lemma OneLine(line: Text)
    requires NEWLINE !in line
    ensures Lines(line + [NEWLINE]) == [line] && Rest(line + [NEWLINE]) == ""
  {
    NoNewline(line);
    assert (line + [NEWLINE])[..|line|] == line;
  }

  lemma LineThen(line: Text, tail: Text)
    requires NEWLINE !in line
    ensures Lines((line + [NEWLINE]) + tail) == [line] + Lines(tail) && Rest((line + [NEWLINE]) + tail) == Rest(tail)
  {
    hide Lines, Rest;
    OneLine(line);
    ReadOn(line + [NEWLINE], tail);
    assert "" + tail == tail;
  }

  // Cutting at the first newline.
  lemma FirstLine(s: Text, i: nat)
    requires i < |s| && s[i] == NEWLINE && NEWLINE !in s[..i]
    ensures Lines(s) == [s[..i]] + Lines(s[i + 1..]) && Rest(s) == Rest(s[i + 1..])
  {
    hide Lines, Rest;
    assert s == (s[..i] + [NEWLINE]) + s[i + 1..];
    LineThen(s[..i], s[i + 1..]);
  }

  // A line ends at a line feed, and nowhere else; an empty line is a line.
  lemma LinesOnce()
    ensures Lines("a\r\nb\n\nc") == ["a\r", "b", ""] && Rest("a\r\nb\n\nc") == "c"
  {
    hide Lines, Rest;
    LineThen("a\r", "b\n\nc");
    LineThen("b", "\nc");
    LineThen("", "c");
    NoNewline("c");
    assert "a\r\nb\n\nc" == ("a\r" + [NEWLINE]) + "b\n\nc";
    assert "b\n\nc" == ("b" + [NEWLINE]) + "\nc";
    assert "\nc" == ("" + [NEWLINE]) + "c";
  }

  // Any split of a text into chunks.

  datatype Reading = Reading(lines: seq<Text>, pending: Text)

  function Concat(chunks: seq<Text>): Text {
    if chunks == [] then "" else Concat(chunks[..|chunks| - 1]) + chunks[|chunks| - 1]
  }

  function ReadChunks(chunks: seq<Text>): Reading {
    if chunks == [] then Reading([], "")
    else
      var before := ReadChunks(chunks[..|chunks| - 1]);
      var text := before.pending + chunks[|chunks| - 1];
      Reading(before.lines + Lines(text), Rest(text))
  }

  // Reading chunk by chunk yields the lines of the whole text, in order and once
  // each, and carries its unterminated tail, wherever the chunks are cut.
  lemma {:induction false} ChunksAreBatch(chunks: seq<Text>)
    ensures ReadChunks(chunks) == Reading(Lines(Concat(chunks)), Rest(Concat(chunks)))
  {
    if chunks != [] {
      var init := chunks[..|chunks| - 1];
      ChunksAreBatch(init);
      ReadOn(Concat(init), chunks[|chunks| - 1]);
    }
  }

  lemma {:induction false} TurnsJoin<T>(a: seq<Text>, b: seq<Text>, parse: Text -> Option<T>)
    ensures Turns(a + b, parse) == Turns(a, parse) + Turns(b, parse)
  {
    if b == [] {
      assert a + b == a;
    } else {
      TurnsJoin(a, b[..|b| - 1], parse);
      assert (a + b)[..|a + b| - 1] == a + b[..|b| - 1];
    }
  }

  method IndexOfNewline(s: Text) returns (i: int)
    ensures i < 0 ==> NEWLINE !in s
    ensures i >= 0 ==> i < |s| && s[i] == NEWLINE && NEWLINE !in s[..i]
  {
    for n := 0 to |s|
      invariant NEWLINE !in s[..n]
    {
      if s[n] == NEWLINE {
        return n;
      }
      assert s[..n + 1] == s[..n] + [s[n]];
    }
    assert s[..|s|] == s;
    return -1;
  }

  class Tailer<T> {
    const start: nat
    const parse: Text -> Option<T>
    var offset: nat
    var pending: Text
    var emitted: seq<T>

    // The state is what parsing `file` from the start offset, in one go, gives.
    ghost predicate Follows(file: Text)
      reads this
    {
      && start <= offset <= |file|
      && emitted == Turns(Lines(file[start..offset]), parse)
      && pending == Rest(file[start..offset])
    }

    // Begins at the front of the file, or behind what is there already.
    constructor (file: Text, replayExisting: bool, parse: Text -> Option<T>)
      ensures Follows(file) && this.parse == parse && start == offset == (if replayExisting then 0 else |file|)
    {
      start := if replayExisting then 0 else |file|;
      offset := if replayExisting then 0 else |file|;
      this.parse := parse;
      pending, emitted := "", [];
    }

    // One read of the file as it is now; what was read before is still in front.
    method ReadNew(file: Text)
      requires offset <= |file| && Follows(file[..offset])
      modifies this`offset, this`pending, this`emitted
      ensures Follows(file) && offset == |file|
      ensures emitted == Turns(Lines(file[start..]), parse) && pending == Rest(file[start..])
    {
      hide Lines, Rest, Turns;
      ghost var seen := file[start..offset];
      assert seen == file[..offset][start..offset];
      var chunk := file[offset..];
      assert file[start..] == seen + chunk && file[start..|file|] == file[start..];
      if |chunk| == 0 {
        assert seen + chunk == seen;
        return;
      }
      ReadOn(seen, chunk);
      TurnsJoin(Lines(seen), Lines(pending + chunk), parse);
      offset := offset + |chunk|;
      var more;
      more, pending := SplitTurns(pending + chunk, parse);
      emitted := emitted + more;
    }
  }

  // Cuts off line after line at its newline.
  method SplitTurns<T>(text: Text, parse: Text -> Option<T>) returns (turns: seq<T>, pending: Text)
    ensures turns == Turns(Lines(text), parse) && pending == Rest(text)
  {
    hide Lines, Rest, Turns;
    turns, pending := [], text;
    while true
      invariant turns + Turns(Lines(pending), parse) == Turns(Lines(text), parse)
      invariant Rest(pending) == Rest(text)
      decreases |pending|
    {
      var i := IndexOfNewline(pending);
      if i < 0 {
        NoNewline(pending);
        NoTurns(parse);
        return;
      }
      FirstLine(pending, i);
      var line := pending[..i];
      TurnsJoin([line], Lines(pending[i + 1..]), parse);
      OneTurn(line, parse);
      var turn := parse(line);
      pending := pending[i + 1..];
      if turn.Some? {
        turns := turns + [turn.value];
      }
    }
  }

  lemma NoTurns<T>(parse: Text -> Option<T>)
    ensures Turns([], parse) == []
  {
  }

  lemma OneTurn<T>(line: Text, parse: Text -> Option<T>)
    ensures Turns([line], parse) == if parse(line).Some? then [parse(line).value] else []
  {
  }
}
