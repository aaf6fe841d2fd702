/**
 * Chunk-to-line framing of the worker's stdout: text is appended to a
 * buffer, complete `\n`-terminated lines are cut off its front, and the
 * unterminated tail stays buffered for the next chunk.
 */
module Framing {
  import opened JsText

  /** The lines of a stream, each written back with its `\n` terminator. */
  function Join(lines: seq<string>): string
    decreases |lines|
  {
    if lines == [] then [] else lines[0] + "\n" + Join(lines[1..])
  }

  /** No line holds a line terminator of its own. */
  predicate LineFree(lines: seq<string>) {
    forall i :: 0 <= i < |lines| ==> '\n' !in lines[i]
  }

  /**
   * Splits a buffer into its complete lines and the partial tail, exactly
   * as repeated `indexOf("\n")` / `substring` does: the lines and the tail
   * put back together give the buffer, and the tail holds no `\n`.
   */
  function CutLines(buffer: string): (r: (seq<string>, string))
    ensures Join(r.0) + r.1 == buffer
    ensures LineFree(r.0)
    ensures '\n' !in r.1
    decreases |buffer|
  {
    var boundary := IndexOf(buffer, '\n');
    if boundary == -1 then ([], buffer)
    else
      var line := buffer[..boundary];
      var tail := CutLines(buffer[boundary + 1..]);
      SplitAtBoundary(buffer, boundary);
      JoinCons(line, tail.0);
      LineFreeCons(line, tail.0);
      Assoc(line + "\n", Join(tail.0), tail.1);
      ([line] + tail.0, tail.1)
  }

  lemma Assoc(x: string, y: string, z: string)
    ensures (x + y) + z == x + (y + z)
  {
  }

  lemma SplitAtBoundary(buffer: string, boundary: int)
    requires 0 <= boundary < |buffer| && buffer[boundary] == '\n'
    ensures buffer == buffer[..boundary] + "\n" + buffer[boundary + 1..]
  {
  }

  lemma JoinCons(line: string, lines: seq<string>)
    ensures Join([line] + lines) == line + "\n" + Join(lines)
  {
    assert ([line] + lines)[1..] == lines;
  }

  lemma LineFreeCons(line: string, lines: seq<string>)
    requires '\n' !in line && LineFree(lines)
    ensures LineFree([line] + lines)
  {
    forall i | 0 <= i < |[line] + lines| ensures '\n' !in ([line] + lines)[i] {
      if i > 0 {
        assert ([line] + lines)[i] == lines[i - 1];
      }
    }
  }

  lemma LineFreeAppend(a: seq<string>, b: seq<string>)
    requires LineFree(a) && LineFree(b)
    ensures LineFree(a + b)
  {
    forall i | 0 <= i < |a + b| ensures '\n' !in (a + b)[i] {
      if i >= |a| {
        assert (a + b)[i] == b[i - |a|];
      }
    }
  }

  lemma {:induction false} JoinAppend(a: seq<string>, b: seq<string>)
    ensures Join(a + b) == Join(a) + Join(b)
    decreases |a|
  {
    if a == [] {
      assert a + b == b;
    } else {
      assert (a + b)[1..] == a[1..] + b;
      JoinAppend(a[1..], b);
    }
  }

  /**
   * The framing is the only way to read a buffer as newline-free lines
   * followed by a newline-free tail.
   */
  lemma {:induction false} CutLinesUnique(lines: seq<string>, tail: string)
    requires LineFree(lines) && '\n' !in tail
    ensures CutLines(Join(lines) + tail) == (lines, tail)
    decreases |lines|
  {
    if lines == [] {
      assert Join(lines) + tail == tail;
    } else {
      var line := lines[0];
      var after := Join(lines[1..]) + tail;
      assert [line] + lines[1..] == lines;
      JoinCons(line, lines[1..]);
      Assoc(line + "\n", Join(lines[1..]), tail);
      assert '\n' !in line;
      FirstBoundary(line, after);
      LineFreeRest(lines);
      CutLinesUnique(lines[1..], tail);
    }
  }

  /** The first boundary of a buffer sits right after its first line. */
  lemma FirstBoundary(line: string, after: string)
    requires '\n' !in line
    ensures var buffer := line + "\n" + after;
      && IndexOf(buffer, '\n') == |line|
      && buffer[..|line|] == line
      && buffer[|line| + 1..] == after
  {
    var buffer := line + "\n" + after;
    assert buffer[|line|] == '\n';
    assert buffer[..|line|] == line;
  }

  lemma LineFreeRest(lines: seq<string>)
    requires LineFree(lines) && lines != []
    ensures LineFree(lines[1..])
  {
    forall i | 0 <= i < |lines[1..]| ensures '\n' !in lines[1..][i] {
      assert lines[1..][i] == lines[i + 1];
    }
  }

  /**
   * Feeding text in two chunks yields the same lines as feeding it at
   * once: the lines cut from `b` followed by those cut from what `b` left
   * behind plus `c`, with the same final tail.
   */
  lemma CutLinesAppend(b: string, c: string)
    ensures CutLines(b + c) ==
      (CutLines(b).0 + CutLines(CutLines(b).1 + c).0, CutLines(CutLines(b).1 + c).1)
  {
    var first := CutLines(b).0;
    var rest := CutLines(b).1;
    var second := CutLines(rest + c).0;
    var tail := CutLines(rest + c).1;
    JoinAppend(first, second);
    Assoc(Join(first), Join(second), tail);
    Assoc(Join(first), rest, c);
    assert Join(first + second) + tail == b + c;
    LineFreeAppend(first, second);
    CutLinesUnique(first + second, tail);
  }
}
