/** The find-and-jump comment stripper of the API checker against a character-by-character
    pushdown automaton, with its stack of closers carried from line to line. */
module ApiComments {

  /** The closer of an open block comment: star-slash, or plus-slash, which nests. */
  datatype Closer = StarSlash | PlusSlash

  // The automaton.

  /** What the last character may still become part of. `Rest` skips to the end of the line. */
  datatype Pending = Nothing | Slash | Star | Plus | Rest

  datatype Machine = Machine(stack: seq<Closer>, pending: Pending, out: string)

  function Read(m: Machine, c: char): Machine {
    if m.pending == Rest then m
    else if m.stack == [] then ReadCode(m, c)
    else if m.stack[|m.stack| - 1] == StarSlash then ReadStar(m, c)
    else ReadPlus(m, c)
  }

  function ReadCode(m: Machine, c: char): Machine {
    if m.pending == Slash then
      if c == '/' then m.(pending := Rest)
      else if c == '*' then m.(stack := [StarSlash], pending := Nothing)
      else if c == '+' then m.(stack := [PlusSlash], pending := Nothing)
      else m.(pending := Nothing, out := m.out + ['/', c])
    else if c == '/' then m.(pending := Slash)
    else m.(pending := Nothing, out := m.out + [c])
  }

  function ReadStar(m: Machine, c: char): Machine
    requires m.stack != []
  {
    if m.pending == Star && c == '/' then m.(stack := m.stack[..|m.stack| - 1], pending := Nothing)
    else m.(pending := if c == '*' then Star else Nothing)
  }

  function ReadPlus(m: Machine, c: char): Machine
    requires m.stack != []
  {
    if m.pending == Plus && c == '/' then m.(stack := m.stack[..|m.stack| - 1], pending := Nothing)
    else if m.pending == Slash && c == '+' then m.(stack := m.stack + [PlusSlash], pending := Nothing)
    else m.(pending := if c == '+' then Plus else if c == '/' then Slash else Nothing)
  }

  /** Reads the line from position `i` to its end. */
  function RunFrom(line: string, i: nat, m: Machine): Machine
    decreases |line| - i
  {
    if i >= |line| then m else RunFrom(line, i + 1, Read(m, line[i]))
  }

  /** At the end of a line a pending slash in code was just a slash. */
  function Flush(m: Machine): Machine {
    if m.stack == [] && m.pending == Slash then m.(pending := Nothing, out := m.out + ['/'])
    else m.(pending := Nothing)
  }

  /** The rest of the line, read with nothing pending. */
  function Finish(line: string, i: nat, stack: seq<Closer>, out: string): Machine {
    Flush(RunFrom(line, i, Machine(stack, Nothing, out)))
  }

  function Strip(line: string, stack: seq<Closer>): Machine {
    Finish(line, 0, stack, "")
  }

  // Markers.

  function Text(k: Closer): string {
    match k
    case StarSlash => "*/"
    case PlusSlash => "+/"
  }

  predicate At(line: string, i: nat, mark: string) {
    |mark| == 2 && i + 1 < |line| && line[i] == mark[0] && line[i + 1] == mark[1]
  }

  /** A marker that matters under this stack starts at `i`. */
  predicate Marked(line: string, i: nat, stack: seq<Closer>) {
    if stack == [] then At(line, i, "//") || At(line, i, "/*") || At(line, i, "/+")
    else if stack[|stack| - 1] == StarSlash then At(line, i, "*/")
    else At(line, i, "+/") || At(line, i, "/+")
  }

  /** A character that starts no marker is code or dropped, and leaves nothing pending that counts. */
  lemma Unmarked(line: string, i: nat, stack: seq<Closer>, out: string)
    requires i < |line| && !Marked(line, i, stack)
    ensures Finish(line, i, stack, out)
         == Finish(line, i + 1, stack, if stack == [] then out + [line[i]] else out)
  {
    var m := Read(Machine(stack, Nothing, out), line[i]);
    assert RunFrom(line, i, Machine(stack, Nothing, out)) == RunFrom(line, i + 1, m);
    var n := Machine(stack, Nothing, if stack == [] then out + [line[i]] else out);
    if i + 1 < |line| && m != n {
      if stack == [] {
        assert out + ['/', line[i + 1]] == out + ['/'] + [line[i + 1]];
      }
      assert Read(m, line[i + 1]) == Read(n, line[i + 1]);
    }
  }

  predicate Clear(line: string, i: nat, j: nat, stack: seq<Closer>) {
    forall p: nat :: i <= p < j ==> !Marked(line, p, stack)
  }

  lemma {:induction false} SkipTo(line: string, i: nat, j: nat, stack: seq<Closer>, out: string)
    requires i <= j <= |line| && Clear(line, i, j, stack)
    ensures Finish(line, i, stack, out)
         == Finish(line, j, stack, if stack == [] then out + line[i..j] else out)
    decreases j - i
  {
    if i < j {
      Unmarked(line, i, stack, out);
      var more := if stack == [] then out + [line[i]] else out;
      SkipTo(line, i + 1, j, stack, more);
      assert out + [line[i]] + line[i + 1..j] == out + line[i..j];
    } else {
      assert out + line[i..j] == out;
    }
  }

  /** The marker at `j` changes the stack to `next`. */
  predicate Turns(line: string, j: nat, stack: seq<Closer>, next: seq<Closer>) {
    if stack == [] then (At(line, j, "/*") && next == [StarSlash]) || (At(line, j, "/+") && next == [PlusSlash])
    else
      || (At(line, j, Text(stack[|stack| - 1])) && next == stack[..|stack| - 1])
      || (stack[|stack| - 1] == PlusSlash && At(line, j, "/+") && next == stack + [PlusSlash])
  }

  lemma ReadMarker(line: string, j: nat, stack: seq<Closer>, next: seq<Closer>, out: string)
    requires Turns(line, j, stack, next)
    ensures j + 2 <= |line|
    ensures RunFrom(line, j, Machine(stack, Nothing, out)) == RunFrom(line, j + 2, Machine(next, Nothing, out))
  {
    var m := Read(Machine(stack, Nothing, out), line[j]);
    assert Read(m, line[j + 1]) == Machine(next, Nothing, out);
    assert RunFrom(line, j + 1, m) == RunFrom(line, j + 2, Read(m, line[j + 1]));
  }

  /** Jumping from `i` over the first marker, at `j`. */
  lemma Jump(line: string, i: nat, j: nat, stack: seq<Closer>, next: seq<Closer>, out: string)
    requires i <= j <= |line| && Clear(line, i, j, stack) && Turns(line, j, stack, next)
    ensures j + 2 <= |line|
    ensures Finish(line, i, stack, out)
         == Finish(line, j + 2, next, if stack == [] then out + line[i..j] else out)
  {
    SkipTo(line, i, j, stack, out);
    ReadMarker(line, j, stack, next, if stack == [] then out + line[i..j] else out);
  }

  /** Nothing left on the line but a line comment, if that. */
  lemma JumpToEnd(line: string, i: nat, j: nat, stack: seq<Closer>, out: string)
    requires i <= j <= |line| && Clear(line, i, j, stack)
    requires j == |line| || (stack == [] && At(line, j, "//"))
    ensures var m := Finish(line, i, stack, out);
      m.stack == stack && m.out == (if stack == [] then out + line[i..j] else out)
  {
    SkipTo(line, i, j, stack, out);
    if j < |line| {
      var m := Machine(stack, Slash, out + line[i..j]);
      assert Read(Machine(stack, Nothing, out + line[i..j]), line[j]) == m;
      RestSkipped(line, j + 2, Read(m, line[j + 1]));
      assert RunFrom(line, j + 1, m) == RunFrom(line, j + 2, Read(m, line[j + 1]));
    }
  }

  lemma {:induction false} RestSkipped(line: string, i: nat, m: Machine)
    requires m.pending == Rest
    ensures RunFrom(line, i, m) == m
    decreases |line| - i
  {
    if i >= |line| {
    } else {
      RestSkipped(line, i + 1, m);
    }
  }

  // The program.

  predicate Absent(line: string, from: nat, to: nat, mark: string) {
    forall p: nat :: from <= p < to ==> !At(line, p, mark)
  }

  /** Where a search from `from` has to have stopped. */
  function Reach(line: string, r: int): (n: nat)
    requires r >= -1
  {
    if r == -1 then |line| else r
  }

  lemma ClearCode(line: string, i: nat, j: nat, a: nat, b: nat, c: nat)
    requires Absent(line, i, a, "//") && Absent(line, i, b, "/*") && Absent(line, i, c, "/+") && j <= a && j <= b
    requires j <= c
    ensures Clear(line, i, j, [])
  {
  }

  lemma ClearComment(line: string, i: nat, j: nat, a: nat, b: nat, stack: seq<Closer>)
    requires stack != [] && Absent(line, i, a, Text(stack[|stack| - 1])) && j <= a
    requires stack[|stack| - 1] == PlusSlash ==> Absent(line, i, b, "/+") && j <= b
    ensures Clear(line, i, j, stack)
  {
  }

  /** `str.find` for a two-character marker: the first occurrence from `from` on, or -1. */
  method Find(line: string, mark: string, from: nat) returns (r: int)
    requires |mark| == 2 && from <= |line|
    ensures r == -1 || from <= r < |line| - 1
    ensures r >= 0 ==> At(line, r, mark)
    ensures Absent(line, from, Reach(line, r), mark)
  {
    r := from;
    while r + 1 < |line|
      invariant from <= r <= |line|
      invariant forall p: nat :: from <= p < r ==> !At(line, p, mark)
    {
      if At(line, r, mark) {
        return;
      }
      r := r + 1;
    }
    r := -1;
  }

  /** The mutable stack of closers, owned by the caller and carried across lines. */
  class OpenComments {
    var closers: seq<Closer>

    constructor ()
      ensures closers == []
    {
      closers := [];
    }
  }

  /** One round of the loop inside a comment: past the next closer or, in a nesting comment, opener. */
  method PassComment(line: string, index: nat, stack: seq<Closer>, ghost out: string)
      returns (next: nat, rest: seq<Closer>)
    requires index < |line| && stack != []
    ensures index < next <= |line| && Finish(line, index, stack, out) == Finish(line, next, rest, out)
  {
    var closer := stack[|stack| - 1];
    var close := Find(line, Text(closer), index);
    var again := -1;
    if closer == PlusSlash {
      again := Find(line, "/+", index);
      if again != -1 && (close == -1 || again < close) {
        ClearComment(line, index, again, Reach(line, close), again, stack);
        Jump(line, index, again, stack, stack + [PlusSlash], out);
        return again + 2, stack + [PlusSlash];
      }
    }
    if close != -1 {
      ClearComment(line, index, close, close, Reach(line, again), stack);
      Jump(line, index, close, stack, stack[..|stack| - 1], out);
      return close + 2, stack[..|stack| - 1];
    }
    ClearComment(line, index, |line|, |line|, |line|, stack);
    SkipTo(line, index, |line|, stack, out);
    return |line|, stack;
  }

  /** The nearest of the three markers that matter in code: where it is and the stack it leaves. A
      line comment leaves none; without any marker the whole line is code. */
  method FirstMarker(line: string, index: nat) returns (first: nat, rest: seq<Closer>)
    requires index < |line|
    ensures index <= first <= |line| && Clear(line, index, first, [])
    ensures if rest == [] then first == |line| || At(line, first, "//") else Turns(line, first, [], rest)
  {
    var slashes := Find(line, "//", index);
    var stars := Find(line, "/*", index);
    var pluses := Find(line, "/+", index);
    ghost var a, b, c := Reach(line, slashes), Reach(line, stars), Reach(line, pluses);
    if slashes == -1 && stars == -1 && pluses == -1 {
      ClearCode(line, index, |line|, a, b, c);
      return |line|, [];
    }
    first := First(slashes, First(stars, pluses));
    ClearCode(line, index, first, a, b, c);
    rest := if first == slashes then [] else if first == stars then [StarSlash] else [PlusSlash];
  }

  /** One round of the loop in code: the text up to the next comment, if any, and where to go on. */
  method PassCode(line: string, index: nat, ghost out: string) returns (next: nat, text: string, rest: seq<Closer>)
    requires index < |line|
    ensures index < next <= |line|
    ensures var m := Finish(line, index, [], out);
      if rest == [] then next == |line| && m.stack == [] && m.out == out + text
      else m == Finish(line, next, rest, out + text)
  {
    var first;
    first, rest := FirstMarker(line, index);
    text := line[index..first];
    if rest == [] {
      JumpToEnd(line, index, first, [], out);
      next := |line|;
    } else {
      Jump(line, index, first, [], rest, out);
      next := first + 2;
    }
  }

  method StripComments(line: string, state: OpenComments) returns (out: string)
    modifies state
    ensures var m := Strip(line, old(state.closers)); out == m.out && state.closers == m.stack
  {
    out := "";
    var index := 0;
    while index < |line|
      invariant index <= |line|
      invariant Finish(line, index, state.closers, out) == Strip(line, old(state.closers))
      decreases |line| - index
    {
      if state.closers != [] {
        index, state.closers := PassComment(line, index, state.closers, out);
      } else {
        var text, rest;
        index, text, rest := PassCode(line, index, out);
        out := out + text;
        if rest == [] {
          return;
        }
        state.closers := rest;
      }
    }
  }

  /** The smaller of two find results, ignoring -1. */
  function First(a: int, b: int): int {
    if a == -1 || (b != -1 && b < a) then b else a
  }

  // What the automaton keeps.

  /** One open star comment, or any number of nested plus comments. */
  predicate Shape(stack: seq<Closer>) {
    stack == [StarSlash] || forall i :: 0 <= i < |stack| ==> stack[i] == PlusSlash
  }

  lemma {:induction false} ShapeKept(line: string, i: nat, m: Machine)
    requires Shape(m.stack)
    ensures Shape(RunFrom(line, i, m).stack)
    decreases |line| - i
  {
    if i >= |line| {
    } else {
      ShapeKept(line, i + 1, Read(m, line[i]));
    }
  }

  /** The stacks a file can reach: the empty one, carried over any lines. */
  function After(lines: seq<string>): seq<Closer> {
    if lines == [] then [] else Strip(lines[|lines| - 1], After(lines[..|lines| - 1])).stack
  }

  lemma {:induction false} ReachableShape(lines: seq<string>)
    ensures Shape(After(lines))
  {
    if lines == [] {
    } else {
      ReachableShape(lines[..|lines| - 1]);
      ShapeKept(lines[|lines| - 1], 0, Machine(After(lines[..|lines| - 1]), Nothing, ""));
    }
  }

  /** No two neighbours form a marker, and the text does not end in a slash. */
  predicate Clean(out: string) {
    && (forall i: nat :: i < |out| ==> !Marked(out, i, []))
    && (out == "" || out[|out| - 1] != '/')
  }

  lemma CleanAppend(out: string, more: string)
    requires Clean(out) && (|more| == 1 || (|more| == 2 && more[0] == '/' && more[1] !in "/*+"))
    requires more[|more| - 1] != '/'
    ensures Clean(out + more)
  {
    forall i: nat | i < |out + more| ensures !Marked(out + more, i, []) {
      if i + 1 < |out| {
        assert !Marked(out, i, []);
      }
    }
  }

  lemma CleanRead(m: Machine, c: char)
    requires Clean(m.out)
    ensures Clean(Read(m, c).out)
  {
    if m.pending != Rest && m.stack == [] {
      if m.pending == Slash && c !in "/*+" {
        CleanAppend(m.out, ['/', c]);
      }
      if m.pending != Slash && c != '/' {
        CleanAppend(m.out, [c]);
      }
    }
  }

  lemma {:induction false} CleanRun(line: string, i: nat, m: Machine)
    requires Clean(m.out)
    ensures Clean(RunFrom(line, i, m).out)
    decreases |line| - i
  {
    if i >= |line| {
    } else {
      CleanRead(m, line[i]);
      CleanRun(line, i + 1, Read(m, line[i]));
    }
  }

  /** What is left of a line holds no comment marker, not even one joined from its two ends, so
      stripping it again as code changes nothing. */
  lemma StrippedIsCode(line: string, stack: seq<Closer>)
    ensures forall i: nat :: i < |Strip(line, stack).out| ==> !Marked(Strip(line, stack).out, i, [])
    ensures Strip(Strip(line, stack).out, []) == Machine([], Nothing, Strip(line, stack).out)
  {
    var m := RunFrom(line, 0, Machine(stack, Nothing, ""));
    var out := Strip(line, stack).out;
    CleanRun(line, 0, Machine(stack, Nothing, ""));
    forall i: nat | i < |out| ensures !Marked(out, i, []) {
      if i + 1 < |m.out| {
        assert !Marked(m.out, i, []);
      }
    }
    SkipTo(out, 0, |out|, [], "");
    assert "" + out[0..|out|] == out;
  }
}
