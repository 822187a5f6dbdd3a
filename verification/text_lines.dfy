/** Splitting text into lines and joining it back, the vocabulary in which
    the generated entry file is described. */
module TextLines {

  /** The lines of `s`: the pieces between `'\n'` characters (one more than
      the number of newlines). */
  function Lines(s: string): (ls: seq<string>)
    ensures |ls| >= 1
    decreases |s|
  {
    if |s| == 0 then [""]
    else if s[0] == '\n' then [""] + Lines(s[1..])
    else
      var rest := Lines(s[1..]);
      [[s[0]] + rest[0]] + rest[1..]
  }

  /** `pieces.join("\n")`. */
  function Join(pieces: seq<string>): string
    decreases |pieces|
  {
    if |pieces| == 0 then ""
    else if |pieces| == 1 then pieces[0]
    else pieces[0] + "\n" + Join(pieces[1..])
  }

  /** Line blocks separated by one empty line each. */
  function Interleave(blocks: seq<seq<string>>): seq<string>
    decreases |blocks|
  {
    if |blocks| == 0 then []
    else if |blocks| == 1 then blocks[0]
    else blocks[0] + [""] + Interleave(blocks[1..])
  }

  /** Text without a newline is one line. */
  lemma {:induction false} LinesOfLine(s: string)
    requires '\n' !in s
    ensures Lines(s) == [s]
    decreases |s|
  {
    if |s| > 0 {
      LinesOfLine(s[1..]);
      assert [s[0]] + s[1..] == s;
    }
  }

  /** A newline splits the lines exactly where it stands. */
  lemma {:induction false} LinesOfSplit(a: string, b: string)
    ensures Lines(a + "\n" + b) == Lines(a) + Lines(b)
    decreases |a|
  {
    var s := a + "\n" + b;
    if |a| == 0 {
      assert s[1..] == b;
    } else {
      assert s[1..] == a[1..] + "\n" + b;
      LinesOfSplit(a[1..], b);
    }
  }

  /** Joining the lines of a text gives the text back. */
  lemma {:induction false} JoinLines(s: string)
    ensures Join(Lines(s)) == s
    decreases |s|
  {
    if |s| > 0 {
      JoinLines(s[1..]);
      var rest := Lines(s[1..]);
      if s[0] == '\n' {
        assert s == "" + "\n" + s[1..];
      } else if |rest| == 1 {
        assert s == [s[0]] + s[1..];
      } else {
        var lines := Lines(s);
        assert lines == [[s[0]] + rest[0]] + rest[1..];
        assert lines[1..] == rest[1..];
        assert Join(lines) == lines[0] + "\n" + Join(rest[1..]);
        assert s[1..] == rest[0] + "\n" + Join(rest[1..]);
        assert s == [s[0]] + s[1..];
      }
    }
  }

  /** Joining lines that hold no newline and splitting again gives the same
      lines. */
  lemma {:induction false} LinesOfJoin(ls: seq<string>)
    requires |ls| >= 1
    requires forall i :: 0 <= i < |ls| ==> '\n' !in ls[i]
    ensures Lines(Join(ls)) == ls
    decreases |ls|
  {
    LinesOfLine(ls[0]);
    if |ls| > 1 {
      LinesOfSplit(ls[0], Join(ls[1..]));
      LinesOfJoin(ls[1..]);
    }
  }

  /** Text without a newline, followed by one piece per block, each piece
      a newline and then text whose lines are the block, all joined by
      newlines: the prefix stands alone on its line and the blocks follow,
      one empty line between neighbours. */
  lemma {:induction false} LinesOfPieces(prefix: string, pieces: seq<string>, bodies: seq<string>, blocks: seq<seq<string>>)
    requires '\n' !in prefix
    requires |pieces| == |bodies| == |blocks|
    requires forall i :: 0 <= i < |pieces| ==> pieces[i] == "\n" + bodies[i] && Lines(bodies[i]) == blocks[i]
    ensures Lines(prefix + Join(pieces)) == [prefix] + Interleave(blocks)
    decreases |pieces|
  {
    if |pieces| == 0 {
      LinesOfLine(prefix);
      assert prefix + Join(pieces) == prefix;
    } else if |pieces| == 1 {
      LinesOfLastPiece(prefix, bodies[0], blocks[0]);
    } else {
      LinesOfPieces("", pieces[1..], bodies[1..], blocks[1..]);
      assert "" + Join(pieces[1..]) == Join(pieces[1..]);
      LinesOfNextPiece(prefix, bodies[0], Join(pieces[1..]), blocks[0], Interleave(blocks[1..]));
    }
  }

  /** The last piece: its lines follow the prefix's line. */
  lemma LinesOfLastPiece(prefix: string, body: string, block: seq<string>)
    requires '\n' !in prefix
    requires Lines(body) == block
    ensures Lines(prefix + ("\n" + body)) == [prefix] + block
  {
    assert prefix + ("\n" + body) == prefix + "\n" + body;
    LinesOfLine(prefix);
    LinesOfSplit(prefix, body);
  }

  /** A piece followed by more: its lines, an empty line, then the rest's
      lines. */
  lemma LinesOfNextPiece(prefix: string, body: string, rest: string, block: seq<string>, tail: seq<string>)
    requires '\n' !in prefix
    requires Lines(body) == block
    requires Lines(rest) == [""] + tail
    ensures Lines(prefix + (("\n" + body) + "\n" + rest)) == [prefix] + (block + [""] + tail)
  {
    assert prefix + (("\n" + body) + "\n" + rest) == prefix + "\n" + (body + "\n" + rest);
    LinesOfTwoSplits(prefix, body, rest);
    assert block + ([""] + tail) == block + [""] + tail;
  }

  /** Two newlines split a text into three runs of lines; the first run is
      one line when it holds no newline. */
  lemma LinesOfTwoSplits(a: string, b: string, c: string)
    requires '\n' !in a
    ensures Lines(a + "\n" + (b + "\n" + c)) == [a] + (Lines(b) + Lines(c))
  {
    LinesOfLine(a);
    LinesOfSplit(a, b + "\n" + c);
    LinesOfSplit(b, c);
  }
}
