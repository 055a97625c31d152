/** The code-span masker of the link checker: which backtick runs delimit, which spans they pair
    into, and what masking twice does. */
module CodeSpans {

  datatype Span = Span(a: nat, b: nat)

  // Delimiter runs.

  function Backslashes(s: string, i: nat): nat
    requires i <= |s|
  {
    if i > 0 && s[i - 1] == '\\' then 1 + Backslashes(s, i - 1) else 0
  }

  /** The `n` characters before `i` are backslashes, and the one before them, if any, is not. */
  predicate BackslashBlock(s: string, i: nat, n: nat)
    requires i <= |s|
  {
    n <= i && (forall p :: i - n <= p < i ==> s[p] == '\\') && (n < i ==> s[i - n - 1] != '\\')
  }

  lemma {:induction false} BackslashesExact(s: string, i: nat, n: nat)
    requires i <= |s|
    ensures BackslashBlock(s, i, n) <==> Backslashes(s, i) == n
    decreases i
  {
    if i > 0 && s[i - 1] == '\\' {
      if n > 0 {
        BackslashesExact(s, i - 1, n - 1);
      }
    }
  }

  /** An even number of backslashes stands before `i`. */
  predicate Unescaped(s: string, i: nat)
    requires i <= |s|
  {
    forall n :: 0 <= n <= i && BackslashBlock(s, i, n) ==> n % 2 == 0
  }

  lemma UnescapedParity(s: string, i: nat)
    requires i <= |s|
    ensures Unescaped(s, i) <==> Backslashes(s, i) % 2 == 0
  {
    BackslashesExact(s, i, Backslashes(s, i));
    forall n | 0 <= n <= i && BackslashBlock(s, i, n) ensures n == Backslashes(s, i) {
      BackslashesExact(s, i, n);
    }
  }

  function RunEnd(s: string, i: nat): (e: nat)
    requires i <= |s|
    ensures i <= e <= |s| && (e < |s| ==> s[e] != '`') && forall p :: i <= p < e ==> s[p] == '`'
    decreases |s| - i
  {
    if i < |s| && s[i] == '`' then RunEnd(s, i + 1) else i
  }

  /** The unescaped maximal runs of backticks from `i` on, in order. */
  function Delimiters(s: string, i: nat): seq<Span>
    requires i <= |s|
    decreases |s| - i
  {
    if i == |s| then []
    else if s[i] != '`' then Delimiters(s, i + 1)
    else
      var e := RunEnd(s, i);
      (if Backslashes(s, i) % 2 == 0 then [Span(i, e)] else []) + Delimiters(s, e)
  }

  predicate IsDelimiter(s: string, r: Span) {
    && r.a < r.b <= |s|
    && (forall p :: r.a <= p < r.b ==> s[p] == '`')
    && (r.a > 0 ==> s[r.a - 1] != '`') && (r.b < |s| ==> s[r.b] != '`')
    && Unescaped(s, r.a)
  }

  predicate Before(runs: seq<Span>, i: nat, j: nat)
    requires i < j < |runs|
  {
    runs[i].a < runs[i].b < runs[j].a < runs[j].b
  }

  predicate Ordered(runs: seq<Span>) {
    && (forall i :: 0 <= i < |runs| ==> runs[i].a < runs[i].b)
    && forall i: nat, j: nat :: i < j < |runs| ==> Before(runs, i, j)
  }

  /** Exactly the delimiter runs, in order. */
  lemma {:induction false} DelimitersExact(s: string, i: nat)
    requires i <= |s| && (i > 0 && i < |s| ==> s[i - 1] != '`' || s[i] != '`')
    ensures forall r :: r in Delimiters(s, i) <==> IsDelimiter(s, r) && r.a >= i
    ensures Ordered(Delimiters(s, i))
    decreases |s| - i
  {
    if i >= |s| {
    } else if s[i] != '`' {
      DelimitersExact(s, i + 1);
    } else {
      var e := RunEnd(s, i);
      DelimitersExact(s, e);
      var rest := Delimiters(s, e);
      forall r ensures r in Delimiters(s, i) <==> IsDelimiter(s, r) && r.a >= i {
        DelimitersFirst(s, i, r);
      }
      forall r | r in rest ensures e < r.a {
        assert IsDelimiter(s, r) && s[r.a] == '`';
      }
      OrderedFront(Span(i, e), rest);
      assert [] + rest == rest;
    }
  }

  /** A run at or after `i`, where one starts, is that one or after it. */
  lemma DelimitersFirst(s: string, i: nat, r: Span)
    requires i < |s| && s[i] == '`' && (i > 0 ==> s[i - 1] != '`')
    ensures IsDelimiter(s, r) && r.a >= i ==> r == Span(i, RunEnd(s, i)) || r.a >= RunEnd(s, i)
    ensures IsDelimiter(s, Span(i, RunEnd(s, i))) <==> Backslashes(s, i) % 2 == 0
  {
    UnescapedParity(s, i);
  }

  lemma OrderedFront(first: Span, rest: seq<Span>)
    requires first.a < first.b && Ordered(rest) && forall r :: r in rest ==> first.b < r.a
    ensures Ordered([first] + rest)
  {
    var all := [first] + rest;
    forall i: nat, j: nat | i < j < |all| ensures Before(all, i, j) {
      if i == 0 {
        assert all[j] in rest;
      } else {
        assert Before(rest, i - 1, j - 1);
      }
    }
  }

  // Pairing.

  function Length(r: Span): int {
    r.b - r.a
  }

  /** The nearest later run as long as the first; `|runs|` when there is none. */
  function Closer(runs: seq<Span>, k: nat): (c: nat)
    requires 1 <= k <= |runs|
    ensures k <= c <= |runs| && (c < |runs| ==> Length(runs[c]) == Length(runs[0]))
    ensures forall j :: k <= j < c ==> Length(runs[j]) != Length(runs[0])
    decreases |runs| - k
  {
    if k == |runs| || Length(runs[k]) == Length(runs[0]) then k else Closer(runs, k + 1)
  }

  /** The leftmost run opens a span that its closer ends; without one it stays text. */
  function Spans(runs: seq<Span>): seq<Span> {
    if runs == [] then []
    else
      var c := Closer(runs, 1);
      if c == |runs| then Spans(runs[1..]) else [Span(runs[0].a, runs[c].b)] + Spans(runs[c + 1..])
  }

  predicate Covered(spans: seq<Span>, p: int) {
    exists i :: 0 <= i < |spans| && spans[i].a <= p < spans[i].b
  }

  function Blank(s: string, spans: seq<Span>): (t: string)
    ensures |t| == |s| && forall p :: 0 <= p < |s| ==> t[p] == if Covered(spans, p) then ' ' else s[p]
  {
    seq(|s|, p requires 0 <= p < |s| => if Covered(spans, p) then ' ' else s[p])
  }

  function SpansOf(s: string): seq<Span> {
    Spans(Delimiters(s, 0))
  }

  function Masked(s: string): string {
    Blank(s, SpansOf(s))
  }

  // What pairing leaves.

  predicate Uncovered(runs: seq<Span>, k: nat)
    requires k < |runs|
  {
    !Covered(Spans(runs), runs[k].a)
  }

  lemma CoveredTail(span: Span, rest: seq<Span>, p: int)
    ensures Covered([span] + rest, p) <==> span.a <= p < span.b || Covered(rest, p)
  {
    var all := [span] + rest;
    assert all[0] == span;
    if Covered(rest, p) {
      var i :| 0 <= i < |rest| && rest[i].a <= p < rest[i].b;
      assert all[i + 1] == rest[i];
    }
    if Covered(all, p) {
      var i :| 0 <= i < |all| && all[i].a <= p < all[i].b;
      assert i > 0 ==> all[i] == rest[i - 1];
    }
  }

  lemma OrderedTail(runs: seq<Span>, n: nat)
    requires Ordered(runs) && n <= |runs|
    ensures Ordered(runs[n..])
  {
    forall i: nat, j: nat | i < j < |runs[n..]| ensures Before(runs[n..], i, j) {
      assert Before(runs, i + n, j + n);
    }
  }

  lemma InsideSpan(runs: seq<Span>, c: nat, i: nat)
    requires Ordered(runs) && i <= c < |runs|
    ensures runs[0].a <= runs[i].a < runs[c].b
  {
    assert i > 0 ==> Before(runs, 0, i);
    assert i < c ==> Before(runs, i, c);
  }

  /** How many runs the first one takes: itself, or all up to its closer. */
  function Taken(runs: seq<Span>): (n: nat)
    requires runs != []
    ensures 1 <= n <= |runs|
  {
    var c := Closer(runs, 1);
    if c == |runs| then 1 else c + 1
  }

  function FirstSpan(runs: seq<Span>): seq<Span>
    requires runs != []
  {
    var c := Closer(runs, 1);
    if c == |runs| then [] else [Span(runs[0].a, runs[c].b)]
  }

  lemma SpansTaken(runs: seq<Span>)
    requires runs != []
    ensures Spans(runs) == FirstSpan(runs) + Spans(runs[Taken(runs)..])
  {
  }

  /** A run left uncovered by the first span and the rest is an opener without a closer, or comes
      after that span. */
  lemma PastSpan(runs: seq<Span>, i: nat, rest: seq<Span>)
    requires Ordered(runs) && i < |runs| && !Covered(FirstSpan(runs) + rest, runs[i].a)
    ensures !Covered(rest, runs[i].a) && (i < Taken(runs) ==> Closer(runs, 1) == |runs|)
  {
    var c := Closer(runs, 1);
    if c < |runs| {
      CoveredTail(Span(runs[0].a, runs[c].b), rest, runs[i].a);
      if i <= c {
        InsideSpan(runs, c, i);
        assert false;
      }
    } else {
      assert FirstSpan(runs) + rest == rest;
    }
  }

  /** Two runs that stay text differ in length. */
  lemma {:induction false} TextRunsDiffer(runs: seq<Span>, i: nat, j: nat)
    requires Ordered(runs) && i < j < |runs| && Uncovered(runs, i) && Uncovered(runs, j)
    ensures Length(runs[i]) != Length(runs[j])
    decreases |runs|
  {
    var n := Taken(runs);
    var rest := Spans(runs[n..]);
    SpansTaken(runs);
    PastSpan(runs, i, rest);
    if i < n {
      assert Closer(runs, 1) == |runs|;
    } else {
      PastSpan(runs, j, rest);
      OrderedTail(runs, n);
      assert runs[n..][i - n] == runs[i] && runs[n..][j - n] == runs[j];
      TextRunsDiffer(runs[n..], i - n, j - n);
    }
  }

  lemma {:induction false} NoSpans(runs: seq<Span>)
    requires forall i, j :: 0 <= i < j < |runs| ==> Length(runs[i]) != Length(runs[j])
    ensures Spans(runs) == []
  {
    if runs == [] {
    } else {
      assert Closer(runs, 1) == |runs|;
      NoSpans(runs[1..]);
    }
  }

  predicate Between(runs: seq<Span>, span: Span) {
    exists i, j :: 0 <= i < j < |runs| && span.a == runs[i].a && span.b == runs[j].b
  }

  /** Every span runs from the start of one run to the end of a later one, and spans do not meet. */
  lemma {:induction false} SpansFacts(runs: seq<Span>)
    requires Ordered(runs)
    ensures forall span :: span in Spans(runs) ==> Between(runs, span)
    ensures Ordered(Spans(runs))
    decreases |runs|
  {
    if runs == [] {
    } else {
      var n := Taken(runs);
      SpansTaken(runs);
      OrderedTail(runs, n);
      SpansFacts(runs[n..]);
      FirstFits(runs, Spans(runs[n..]));
    }
  }

  /** The first span lies before the spans of the later runs. */
  lemma FirstFits(runs: seq<Span>, rest: seq<Span>)
    requires runs != [] && Ordered(runs) && Ordered(rest)
    requires forall span :: span in rest ==> Between(runs[Taken(runs)..], span)
    ensures Ordered(FirstSpan(runs) + rest)
    ensures forall span :: span in FirstSpan(runs) + rest ==> Between(runs, span)
  {
    var c, n := Closer(runs, 1), Taken(runs);
    forall span | span in rest ensures Between(runs, span) && span.a >= runs[n - 1].b + 1 {
      BetweenTail(runs, n, span);
    }
    if c < |runs| {
      assert Before(runs, 0, c);
      assert Between(runs, Span(runs[0].a, runs[c].b));
      OrderedFront(Span(runs[0].a, runs[c].b), rest);
    } else {
      assert FirstSpan(runs) + rest == rest;
    }
  }

  lemma BetweenTail(runs: seq<Span>, n: nat, span: Span)
    requires Ordered(runs) && 0 < n <= |runs| && Between(runs[n..], span)
    ensures Between(runs, span) && span.a >= runs[n - 1].b + 1
  {
    var i, j :| 0 <= i < j < |runs[n..]| && span.a == runs[n..][i].a && span.b == runs[n..][j].b;
    assert runs[i + n].a == span.a && runs[j + n].b == span.b;
    assert Before(runs, n - 1, i + n);
  }

  // The pairing rule, run by run.

  /** Run `j` is the nearest run after `i` of the same length. */
  predicate Mates(runs: seq<Span>, i: nat, j: nat) {
    && i < j < |runs| && runs[j].b - runs[j].a == runs[i].b - runs[i].a
    && forall k :: i < k < j ==> runs[k].b - runs[k].a != runs[i].b - runs[i].a
  }

  predicate StartsAt(span: Span, run: Span) {
    span.a == run.a
  }

  predicate Encloses(span: Span, run: Span) {
    span.a < run.a < span.b
  }

  predicate HasMate(runs: seq<Span>, i: nat) {
    exists j: nat :: j < |runs| && Mates(runs, i, j)
  }

  /** `span` runs from run `i` to the end of its mate. */
  predicate Pairs(runs: seq<Span>, i: nat, span: Span)
    requires i < |runs|
  {
    span.a == runs[i].a && exists j: nat :: j < |runs| && Mates(runs, i, j) && span.b == runs[j].b
  }

  /** Run `i` opens a span exactly when it has a mate and lies inside no other span. */
  ghost predicate PairsAt(runs: seq<Span>, spans: seq<Span>, i: nat)
    requires i < |runs|
  {
    && ((exists span :: span in spans && StartsAt(span, runs[i])) <==>
          HasMate(runs, i) && forall span :: span in spans ==> !Encloses(span, runs[i]))
    && forall span :: span in spans && StartsAt(span, runs[i]) ==> Pairs(runs, i, span)
  }

  lemma ClosesMate(runs: seq<Span>)
    requires runs != []
    ensures Closer(runs, 1) < |runs| ==> Mates(runs, 0, Closer(runs, 1))
    ensures Closer(runs, 1) == |runs| ==> !HasMate(runs, 0)
  {
  }

  lemma MatesLater(runs: seq<Span>, n: nat, i: nat)
    requires n <= i < |runs|
    ensures HasMate(runs, i) <==> HasMate(runs[n..], i - n)
    ensures forall span :: Pairs(runs[n..], i - n, span) ==> Pairs(runs, i, span)
  {
    var later := runs[n..];
    forall j: nat {:trigger Mates(later, i - n, j)} | j < |later|
      ensures Mates(later, i - n, j) <==> Mates(runs, i, j + n)
    {
      assert later[j] == runs[j + n] && later[i - n] == runs[i];
      assert forall k: nat :: n <= k < |runs| ==> runs[k] == later[k - n];
    }
    if HasMate(runs, i) {
      var j: nat :| j < |runs| && Mates(runs, i, j);
      assert Mates(later, i - n, j - n);
    }
    forall span | Pairs(later, i - n, span) ensures Pairs(runs, i, span) {
      var j: nat :| j < |later| && Mates(later, i - n, j) && span.b == later[j].b;
      assert Mates(runs, i, j + n);
    }
  }

  lemma LaterSpans(runs: seq<Span>, span: Span)
    requires runs != [] && Ordered(runs) && Ordered(runs[Taken(runs)..])
    requires span in Spans(runs[Taken(runs)..])
    ensures span.a > runs[Taken(runs) - 1].b
  {
    SpansFacts(runs[Taken(runs)..]);
    BetweenTail(runs, Taken(runs), span);
  }

  lemma {:induction false} SpansExact(runs: seq<Span>, i: nat)
    requires Ordered(runs) && i < |runs|
    ensures PairsAt(runs, Spans(runs), i)
    decreases |runs|
  {
    var n, c := Taken(runs), Closer(runs, 1);
    var first, rest := FirstSpan(runs), Spans(runs[n..]);
    SpansTaken(runs);
    ClosesMate(runs);
    OrderedTail(runs, n);
    forall span | span in rest ensures span.a > runs[n - 1].b {
      LaterSpans(runs, span);
    }
    if i < n {
      FirstPairs(runs, rest, i);
    } else {
      SpansExact(runs[n..], i - n);
      MatesLater(runs, n, i);
      LaterPairs(runs, rest, i);
    }
  }

  lemma FirstPairs(runs: seq<Span>, rest: seq<Span>, i: nat)
    requires runs != [] && Ordered(runs) && i < Taken(runs)
    requires forall span :: span in rest ==> span.a > runs[Taken(runs) - 1].b
    ensures PairsAt(runs, FirstSpan(runs) + rest, i)
  {
    var n, c := Taken(runs), Closer(runs, 1);
    ClosesMate(runs);
    InsideSpan(runs, n - 1, i);
    if c < |runs| {
      var first := Span(runs[0].a, runs[c].b);
      assert first in FirstSpan(runs) + rest;
      assert i > 0 ==> Before(runs, 0, i) && Encloses(first, runs[i]);
    }
  }

  lemma LaterPairs(runs: seq<Span>, rest: seq<Span>, i: nat)
    requires runs != [] && Ordered(runs) && Taken(runs) <= i < |runs|
    requires PairsAt(runs[Taken(runs)..], rest, i - Taken(runs))
    requires HasMate(runs, i) <==> HasMate(runs[Taken(runs)..], i - Taken(runs))
    requires forall span :: Pairs(runs[Taken(runs)..], i - Taken(runs), span) ==> Pairs(runs, i, span)
    ensures PairsAt(runs, FirstSpan(runs) + rest, i)
  {
    var n, all := Taken(runs), FirstSpan(runs) + rest;
    assert runs[n..][i - n] == runs[i] && Before(runs, 0, i) && Before(runs, n - 1, i);
    forall span | span in FirstSpan(runs) ensures !Encloses(span, runs[i]) && !StartsAt(span, runs[i]) {}
    assert forall span :: span in all <==> span in FirstSpan(runs) || span in rest;
  }

  // Masking twice.

  lemma DelimiterEdges(s: string, first: Span, last: Span)
    requires IsDelimiter(s, first) && IsDelimiter(s, last) && first.a < last.b
    ensures last.b <= |s| && s[first.a] == '`' && s[last.b - 1] == '`'
    ensures (first.a > 0 ==> s[first.a - 1] != '`') && (last.b < |s| ==> s[last.b] != '`')
  {
  }

  /** A span of the line starts and ends at the edges of runs. */
  lemma SpanEdges(s: string, span: Span)
    requires span in SpansOf(s)
    ensures span.a < span.b <= |s| && s[span.a] == '`' && s[span.b - 1] == '`'
    ensures (span.a > 0 ==> s[span.a - 1] != '`') && (span.b < |s| ==> s[span.b] != '`')
  {
    var runs := Delimiters(s, 0);
    DelimitersExact(s, 0);
    SpansFacts(runs);
    BetweenEdges(s, runs, span);
  }

  lemma BetweenEdges(s: string, runs: seq<Span>, span: Span)
    requires Ordered(runs) && (forall r :: r in runs ==> IsDelimiter(s, r)) && Between(runs, span)
    ensures span.a < span.b <= |s| && s[span.a] == '`' && s[span.b - 1] == '`'
    ensures (span.a > 0 ==> s[span.a - 1] != '`') && (span.b < |s| ==> s[span.b] != '`')
  {
    var i, j :| 0 <= i < j < |runs| && span.a == runs[i].a && span.b == runs[j].b;
    assert Before(runs, i, j) && runs[i] in runs && runs[j] in runs;
    DelimiterEdges(s, runs[i], runs[j]);
  }

  /** Where coverage changes, a run has its edge. */
  lemma CoverageEdge(s: string, p: nat)
    requires p + 1 < |s| && Covered(SpansOf(s), p) != Covered(SpansOf(s), p + 1)
    ensures Covered(SpansOf(s), p) ==> s[p] == '`' && s[p + 1] != '`'
    ensures Covered(SpansOf(s), p + 1) ==> s[p] != '`' && s[p + 1] == '`'
  {
    var spans := SpansOf(s);
    var q := if Covered(spans, p) then p else p + 1;
    var i :| 0 <= i < |spans| && spans[i].a <= q < spans[i].b;
    SpanEdges(s, spans[i]);
  }

  lemma {:induction false} SameBackslashes(s: string, i: nat)
    requires i < |s| && !Covered(SpansOf(s), i) && (s[i] == '`' || s[i] == '\\')
    requires s[i] == '`' ==> i > 0 ==> s[i - 1] != '`'
    ensures Backslashes(Masked(s), i) == Backslashes(s, i)
  {
    if i == 0 || s[i - 1] != '\\' {
    } else {
      if Covered(SpansOf(s), i - 1) {
        CoverageEdge(s, i - 1);
        assert false;
      }
      SameBackslashes(s, i - 1);
    }
  }

  /** A run that the masked line shows is a run of the line that no span touched. */
  lemma RunSurvived(s: string, r: Span)
    requires IsDelimiter(Masked(s), r)
    ensures IsDelimiter(s, r) && !Covered(SpansOf(s), r.a)
  {
    var t := Masked(s);
    assert t[r.a] == '`' && t[r.b - 1] == '`';
    if r.a > 0 && s[r.a - 1] == '`' {
      CoverageEdge(s, r.a - 1);
    }
    if r.b < |s| && s[r.b] == '`' {
      CoverageEdge(s, r.b - 1);
    }
    SameBackslashes(s, r.a);
    UnescapedParity(t, r.a);
    UnescapedParity(s, r.a);
  }

  lemma TextDelimitersDiffer(s: string, q: Span, r: Span)
    requires IsDelimiter(s, q) && IsDelimiter(s, r) && q.a < r.a
    requires !Covered(SpansOf(s), q.a) && !Covered(SpansOf(s), r.a)
    ensures Length(q) != Length(r)
  {
    var runs := Delimiters(s, 0);
    DelimitersExact(s, 0);
    var i, j :| 0 <= i < |runs| && runs[i] == q && 0 <= j < |runs| && runs[j] == r;
    assert j < i ==> Before(runs, j, i);
    TextRunsDiffer(runs, i, j);
  }

  lemma SurvivorsDiffer(s: string, q: Span, r: Span)
    requires IsDelimiter(Masked(s), q) && IsDelimiter(Masked(s), r) && q.a < r.a
    ensures Length(q) != Length(r)
  {
    RunSurvived(s, q);
    RunSurvived(s, r);
    TextDelimitersDiffer(s, q, r);
  }

  /** Masking keeps the length and, done again, changes nothing. */
  lemma MaskedTwice(s: string)
    ensures |Masked(s)| == |s| && Masked(Masked(s)) == Masked(s)
  {
    var t := Masked(s);
    var left := Delimiters(t, 0);
    DelimitersExact(t, 0);
    forall i, j | 0 <= i < j < |left| ensures Length(left[i]) != Length(left[j]) {
      assert Before(left, i, j) && left[i] in left && left[j] in left;
      SurvivorsDiffer(s, left[i], left[j]);
    }
    NoSpans(left);
  }

  // The program.

  method DelimiterRuns(line: string) returns (runs: seq<Span>)
    ensures runs == Delimiters(line, 0)
  {
    runs := [];
    var i := 0;
    while i < |line|
      invariant i <= |line| && runs + Delimiters(line, i) == Delimiters(line, 0)
    {
      if line[i] != '`' {
        i := i + 1;
      } else {
        var backslashes, position := 0, i - 1;
        while position >= 0 && line[position] == '\\'
          invariant -1 <= position < i && backslashes + Backslashes(line, position + 1) == Backslashes(line, i)
        {
          backslashes := backslashes + 1;
          position := position - 1;
        }
        var end := RunEnd(line, i);
        if backslashes % 2 == 0 {
          runs := runs + [Span(i, end)];
        }
        i := end;
      }
    }
  }

  /** The inner search for a run of equal length. */
  method FindCloser(runs: seq<Span>, index: nat) returns (closer: nat)
    requires index < |runs|
    ensures index < closer <= |runs| && Closer(runs[index..], 1) == closer - index
  {
    closer := index + 1;
    while closer < |runs| && Length(runs[closer]) != Length(runs[index])
      invariant index < closer <= |runs| && Closer(runs[index..], 1) == Closer(runs[index..], closer - index)
      decreases |runs| - closer
    {
      closer := closer + 1;
    }
  }

  method BlankRange(out: array<char>, span: Span, line: string, ghost spans: seq<Span>)
    requires span.a <= span.b <= out.Length && out[..] == Blank(line, spans)
    modifies out
    ensures out[..] == Blank(line, spans + [span])
  {
    for position := span.a to span.b
      invariant forall p :: 0 <= p < out.Length ==>
                  out[p] == if span.a <= p < position || Covered(spans, p) then ' ' else line[p]
    {
      out[position] := ' ';
    }
    forall p | 0 <= p < |line| ensures out[p] == Blank(line, spans + [span])[p] {
      CoveredMore(spans, span, p);
    }
  }

  lemma CoveredMore(spans: seq<Span>, span: Span, p: int)
    ensures Covered(spans + [span], p) <==> Covered(spans, p) || span.a <= p < span.b
  {
    var all := spans + [span];
    assert all[|spans|] == span;
    if Covered(spans, p) {
      var i :| 0 <= i < |spans| && spans[i].a <= p < spans[i].b;
      assert all[i] == spans[i];
    }
  }

  /** Runs of the line, in order. */
  ghost predicate RunsWithin(line: string, runs: seq<Span>) {
    Ordered(runs) && forall i :: 0 <= i < |runs| ==> runs[i].b <= |line|
  }

  lemma DelimitersWithin(line: string)
    ensures RunsWithin(line, Delimiters(line, 0))
  {
    DelimitersExact(line, 0);
    var runs := Delimiters(line, 0);
    forall i | 0 <= i < |runs| ensures runs[i].b <= |line| {
      assert runs[i] in runs;
    }
  }

  /** The spans already blanked and those of the remaining runs are all the spans. */
  predicate Ahead(runs: seq<Span>, spans: seq<Span>, index: nat)
    requires index <= |runs|
  {
    spans + Spans(runs[index..]) == Spans(runs)
  }

  lemma AheadNext(runs: seq<Span>, spans: seq<Span>, index: nat, more: seq<Span>, next: nat)
    requires index < |runs| && Ahead(runs, spans, index)
    requires next == index + Taken(runs[index..]) && more == spans + FirstSpan(runs[index..])
    ensures next <= |runs| && Ahead(runs, more, next)
  {
    var here := runs[index..];
    var n, first, rest := Taken(here), FirstSpan(here), Spans(here[Taken(here)..]);
    SpansTaken(here);
    assert here[n..] == runs[next..];
    assert spans + (first + rest) == spans + first + rest;
  }

  lemma AheadEnds(runs: seq<Span>, spans: seq<Span>)
    ensures Ahead(runs, [], 0) && (Ahead(runs, spans, |runs|) ==> spans == Spans(runs))
  {
    assert runs[0..] == runs && [] + Spans(runs) == Spans(runs);
    assert runs[|runs|..] == [] && spans + [] == spans;
  }

  lemma NothingBlanked(line: string)
    ensures Blank(line, []) == line
  {
  }

  /** `list(line)`. */
  method Characters(line: string) returns (out: array<char>)
    ensures fresh(out) && out[..] == line
  {
    out := new char[|line|](i requires 0 <= i < |line| => line[i]);
  }

  /** One round of the pairing loop: past a run that stays text, or past a span that is blanked. */
  method PairNext(out: array<char>, line: string, runs: seq<Span>, index: nat, ghost spans: seq<Span>)
      returns (next: nat, ghost more: seq<Span>)
    requires RunsWithin(line, runs) && index < |runs| && out[..] == Blank(line, spans)
    modifies out
    ensures next == index + Taken(runs[index..]) && more == spans + FirstSpan(runs[index..])
    ensures out[..] == Blank(line, more)
  {
    var closer := FindCloser(runs, index);
    if closer == |runs| {
      assert spans + [] == spans;
      next, more := index + 1, spans;
    } else {
      var span := Span(runs[index].a, runs[closer].b);
      assert Before(runs, index, closer);
      BlankRange(out, span, line, spans);
      next, more := closer + 1, spans + [span];
    }
  }

  /** The pairing loop. */
  method BlankSpans(out: array<char>, line: string, runs: seq<Span>)
    requires RunsWithin(line, runs) && out[..] == line
    modifies out
    ensures out[..] == Blank(line, Spans(runs))
  {
    NothingBlanked(line);
    AheadEnds(runs, []);
    ghost var spans: seq<Span> := [];
    var index := 0;
    while index < |runs|
      invariant index <= |runs| && out[..] == Blank(line, spans) && Ahead(runs, spans, index)
    {
      ghost var here, blanked := index, spans;
      index, spans := PairNext(out, line, runs, index, spans);
      AheadNext(runs, blanked, here, spans, index);
    }
    AheadEnds(runs, spans);
  }

  method StripInlineCode(line: string) returns (out: array<char>)
    ensures fresh(out) && out[..] == Masked(line)
  {
    var runs := DelimiterRuns(line);
    DelimitersWithin(line);
    out := Characters(line);
    BlankSpans(out, line, runs);
  }
}
