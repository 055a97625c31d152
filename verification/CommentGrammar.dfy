/** Stripping against a grammar: a line written as code and comments, nested ones included, is stripped
    to its code, and what it leaves open is carried over. */
module CommentGrammar {
  import opened ApiComments

  // Running the automaton over text put together.

  lemma {:induction false} FeedTail(line: string, i: nat, m: Machine)
    requires i <= |line|
    ensures RunFrom(line, i, m) == RunFrom(line[i..], 0, m)
    decreases |line| - i
  {
    if i == |line| {
    } else {
      FeedTail(line, i + 1, Read(m, line[i]));
      FeedTail(line[i..], 1, Read(m, line[i]));
      assert line[i..][1..] == line[i + 1..];
    }
  }

  /** The automaton after reading `s`. */
  function Feed(s: string, m: Machine): Machine {
    RunFrom(s, 0, m)
  }

  lemma FeedCons(c: char, s: string, m: Machine)
    ensures Feed([c] + s, m) == Feed(s, Read(m, c))
  {
    FeedTail([c] + s, 1, Read(m, c));
    assert ([c] + s)[1..] == s;
  }

  lemma {:induction false} FeedAppend(a: string, b: string, m: Machine)
    ensures Feed(a + b, m) == Feed(b, Feed(a, m))
  {
    if a == "" {
      assert a + b == b;
    } else {
      assert a == [a[0]] + a[1..] && a + b == [a[0]] + (a[1..] + b);
      FeedCons(a[0], a[1..] + b, m);
      FeedCons(a[0], a[1..], m);
      FeedAppend(a[1..], b, Read(m, a[0]));
    }
  }

  lemma FeedTwo(c: char, d: char, m: Machine)
    ensures Feed([c, d], m) == Read(Read(m, c), d)
  {
    FeedCons(c, [d], m);
    FeedCons(d, "", Read(m, c));
    assert [c, d] == [c] + [d] && [d] == [d] + "";
  }

  // Code.

  /** Every slash is followed by a character that does not make it a marker. */
  predicate CodeText(s: string) {
    forall i :: 0 <= i < |s| && s[i] == '/' ==> i + 1 < |s| && s[i + 1] !in "/*+"
  }

  lemma {:induction false} FeedCode(s: string, out: string)
    requires CodeText(s)
    ensures Feed(s, Machine([], Nothing, out)) == Machine([], Nothing, out + s)
    decreases |s|
  {
    var m := Machine([], Nothing, out);
    if s == "" {
      assert out + s == out;
    } else if s[0] == '/' {
      var rest := s[2..];
      assert s == [s[0], s[1]] + rest;
      FeedAppend([s[0], s[1]], rest, m);
      FeedTwo(s[0], s[1], m);
      FeedCode(rest, out + [s[0], s[1]]);
      assert out + [s[0], s[1]] + rest == out + s;
    } else {
      assert s == [s[0]] + s[1..];
      FeedCons(s[0], s[1..], m);
      FeedCode(s[1..], out + [s[0]]);
      assert out + [s[0]] + s[1..] == out + s;
    }
  }

  // Star comments.

  /** No star is followed by a slash. */
  predicate StarText(s: string) {
    forall i :: 0 <= i < |s| - 1 && s[i] == '*' ==> s[i + 1] != '/'
  }

  predicate OpenStar(m: Machine, out: string) {
    m.stack == [StarSlash] && m.out == out && (m.pending == Nothing || m.pending == Star)
  }

  lemma {:induction false} FeedStar(s: string, m: Machine, out: string)
    requires StarText(s) && OpenStar(m, out) && (m.pending == Star && s != "" ==> s[0] != '/')
    ensures OpenStar(Feed(s, m), out)
    decreases |s|
  {
    if s == "" {
    } else {
      assert s == [s[0]] + s[1..];
      FeedCons(s[0], s[1..], m);
      FeedStar(s[1..], Read(m, s[0]), out);
    }
  }

  // Nesting comments.

  datatype Token = Open | Close | Plain(text: string)

  function TextOf(t: Token): string {
    match t
    case Open => "/+"
    case Close => "+/"
    case Plain(text) => text
  }

  function Written(ts: seq<Token>): string {
    if ts == [] then "" else TextOf(ts[0]) + Written(ts[1..])
  }

  /** How deep the comment is after the tokens, from depth `d`. */
  function DepthAfter(ts: seq<Token>, d: int): int {
    if ts == [] then d
    else DepthAfter(ts[1..], match ts[0] case Open => d + 1 case Close => d - 1 case Plain(_) => d)
  }

  /** Text without an opener or closer of its own that leaves nothing to become one. */
  predicate PlusText(s: string) {
    && (forall i :: 0 <= i < |s| - 1 ==> !(s[i] == '+' && s[i + 1] == '/') && !(s[i] == '/' && s[i + 1] == '+'))
    && (s != "" ==> s[|s| - 1] !in "+/")
  }

  predicate TokenOk(t: Token) {
    t.Plain? ==> PlusText(t.text)
  }

  /** The comment is open before each of the tokens. */
  predicate Nested(ts: seq<Token>, d: int) {
    && (forall i :: 0 <= i < |ts| ==> DepthAfter(ts[..i], d) >= 1)
    && forall i :: 0 <= i < |ts| ==> TokenOk(ts[i])
  }

  function Pluses(d: int): (stack: seq<Closer>)
    ensures |stack| == (if d < 0 then 0 else d) && forall i :: 0 <= i < |stack| ==> stack[i] == PlusSlash
  {
    seq(if d < 0 then 0 else d, _ => PlusSlash)
  }

  predicate InPluses(m: Machine, d: int, out: string) {
    m.stack == Pluses(d) && m.out == out && (m.pending == Nothing || m.pending == Plus || m.pending == Slash)
  }

  lemma {:induction false} FeedPlain(s: string, m: Machine, d: int, out: string)
    requires d >= 1 && PlusText(s) && InPluses(m, d, out)
    requires s == "" ==> m.pending == Nothing
    requires s != "" ==> !(m.pending == Plus && s[0] == '/') && !(m.pending == Slash && s[0] == '+')
    ensures Feed(s, m) == Machine(Pluses(d), Nothing, out)
    decreases |s|
  {
    if s == "" {
    } else {
      assert s == [s[0]] + s[1..];
      FeedCons(s[0], s[1..], m);
      FeedPlain(s[1..], Read(m, s[0]), d, out);
    }
  }

  lemma FeedToken(t: Token, d: int, out: string)
    requires d >= 1 && TokenOk(t)
    ensures Feed(TextOf(t), Machine(Pluses(d), Nothing, out)) == Machine(Pluses(DepthAfter([t], d)), Nothing, out)
  {
    var m := Machine(Pluses(d), Nothing, out);
    assert [t][1..] == [];
    match t
    case Open =>
      FeedTwo('/', '+', m);
      assert Pluses(d) + [PlusSlash] == Pluses(d + 1);
    case Close =>
      FeedTwo('+', '/', m);
      assert Pluses(d)[..d - 1] == Pluses(d - 1);
    case Plain(text) => FeedPlain(text, m, d, out);
  }

  lemma NestedTail(ts: seq<Token>, d: int)
    requires ts != [] && Nested(ts, d)
    ensures d >= 1 && Nested(ts[1..], DepthAfter([ts[0]], d))
    ensures DepthAfter(ts, d) == DepthAfter(ts[1..], DepthAfter([ts[0]], d))
  {
    var rest, e := ts[1..], DepthAfter([ts[0]], d);
    assert DepthAfter(ts[..0], d) >= 1;
    assert ts == [ts[0]] + rest;
    DepthCons(ts[0], rest, d);
    forall i | 0 <= i < |rest| ensures DepthAfter(rest[..i], e) >= 1 {
      assert ts[..i + 1] == [ts[0]] + rest[..i];
      DepthCons(ts[0], rest[..i], d);
      assert DepthAfter(ts[..i + 1], d) >= 1;
    }
  }

  lemma DepthCons(t: Token, rest: seq<Token>, d: int)
    ensures DepthAfter([t] + rest, d) == DepthAfter(rest, DepthAfter([t], d))
  {
    assert ([t] + rest)[1..] == rest && [t][1..] == [];
  }

  /** Each opener takes the automaton one level in and each closer one level out, and nothing is kept. */
  lemma {:induction false} FeedNested(ts: seq<Token>, d: int, out: string)
    requires Nested(ts, d)
    ensures Feed(Written(ts), Machine(Pluses(d), Nothing, out)) == Machine(Pluses(DepthAfter(ts, d)), Nothing, out)
    decreases |ts|
  {
    if ts == [] {
    } else {
      var e := DepthAfter([ts[0]], d);
      NestedTail(ts, d);
      FeedAppend(TextOf(ts[0]), Written(ts[1..]), Machine(Pluses(d), Nothing, out));
      FeedToken(ts[0], d, out);
      FeedNested(ts[1..], e, out);
    }
  }

  // Lines.

  datatype Piece = Code(text: string) | StarComment(text: string) | PlusComment(tokens: seq<Token>)

  /** How a line ends: after a piece, with a slash of code, in a line comment, or in an open comment. */
  datatype Ending = Whole | Slashed | LineComment(text: string) | InStar(text: string) | InPlus(tokens: seq<Token>)

  function PieceText(q: Piece): string {
    match q
    case Code(text) => text
    case StarComment(text) => "/*" + text + "*/"
    case PlusComment(ts) => "/+" + Written(ts) + "+/"
  }

  function EndingText(e: Ending): string {
    match e
    case Whole => ""
    case Slashed => "/"
    case LineComment(text) => "//" + text
    case InStar(text) => "/*" + text
    case InPlus(ts) => "/+" + Written(ts)
  }

  predicate PieceOk(q: Piece) {
    match q
    case Code(text) => CodeText(text)
    case StarComment(text) => StarText(text)
    case PlusComment(ts) => Nested(ts, 1) && DepthAfter(ts, 1) == 1
  }

  predicate EndingOk(e: Ending) {
    match e
    case InStar(text) => StarText(text)
    case InPlus(ts) => Nested(ts, 1) && DepthAfter(ts, 1) >= 1
    case _ => true
  }

  function LineText(pieces: seq<Piece>, e: Ending): string {
    if pieces == [] then EndingText(e) else PieceText(pieces[0]) + LineText(pieces[1..], e)
  }

  function CodeOf(pieces: seq<Piece>): string {
    if pieces == [] then "" else (if pieces[0].Code? then pieces[0].text else "") + CodeOf(pieces[1..])
  }

  function LeftOpen(e: Ending): seq<Closer> {
    match e
    case InStar(_) => [StarSlash]
    case InPlus(ts) => Pluses(DepthAfter(ts, 1))
    case _ => []
  }

  lemma FeedOpener(star: bool, out: string)
    ensures Feed(if star then "/*" else "/+", Machine([], Nothing, out))
         == Machine(if star then [StarSlash] else Pluses(1), Nothing, out)
  {
    FeedTwo('/', if star then '*' else '+', Machine([], Nothing, out));
    assert Pluses(1) == [PlusSlash];
  }

  lemma FeedStarCloser(m: Machine, out: string)
    requires OpenStar(m, out)
    ensures Feed("*/", m) == Machine([], Nothing, out)
  {
    FeedTwo('*', '/', m);
  }

  lemma FeedPiece(q: Piece, out: string)
    requires PieceOk(q)
    ensures Feed(PieceText(q), Machine([], Nothing, out))
         == Machine([], Nothing, out + if q.Code? then q.text else "")
  {
    var m := Machine([], Nothing, out);
    assert out + "" == out;
    match q
    case Code(text) => FeedCode(text, out);
    case StarComment(text) =>
      FeedAppend("/*" + text, "*/", m);
      FeedAppend("/*", text, m);
      FeedOpener(true, out);
      FeedStar(text, Machine([StarSlash], Nothing, out), out);
      FeedStarCloser(Feed(text, Machine([StarSlash], Nothing, out)), out);
    case PlusComment(ts) =>
      FeedAppend("/+" + Written(ts), "+/", m);
      FeedAppend("/+", Written(ts), m);
      FeedOpener(false, out);
      FeedNested(ts, 1, out);
      FeedToken(Close, 1, out);
      assert [Close][1..] == [] && Pluses(0) == [];
  }

  lemma FeedEnding(e: Ending, out: string)
    requires EndingOk(e)
    ensures Flush(Feed(EndingText(e), Machine([], Nothing, out)))
         == Machine(LeftOpen(e), Nothing, if e.Slashed? then out + "/" else out)
  {
    var m := Machine([], Nothing, out);
    match e
    case Whole =>
    case Slashed =>
      assert "/" == ['/'] + "";
      FeedCons('/', "", m);
    case LineComment(text) =>
      FeedAppend("//", text, m);
      FeedTwo('/', '/', m);
      RestSkipped(text, 0, Feed("//", m));
    case InStar(text) =>
      FeedAppend("/*", text, m);
      FeedOpener(true, out);
      FeedStar(text, Machine([StarSlash], Nothing, out), out);
    case InPlus(ts) =>
      FeedAppend("/+", Written(ts), m);
      FeedOpener(false, out);
      FeedNested(ts, 1, out);
  }

  lemma Regroup(a: string, b: string, c: string, d: string)
    ensures (a + b) + c + d == a + (b + c) + d
  {
    assert (a + b) + c == a + (b + c);
  }

  lemma {:induction false} FeedLine(pieces: seq<Piece>, e: Ending, out: string)
    requires EndingOk(e) && forall i :: 0 <= i < |pieces| ==> PieceOk(pieces[i])
    ensures Flush(Feed(LineText(pieces, e), Machine([], Nothing, out)))
         == Machine(LeftOpen(e), Nothing, out + CodeOf(pieces) + if e.Slashed? then "/" else "")
    decreases |pieces|
  {
    if pieces == [] {
      FeedEnding(e, out);
      assert out + "" + "" == out && out + "" + "/" == out + "/";
    } else {
      var kept := if pieces[0].Code? then pieces[0].text else "";
      FeedAppend(PieceText(pieces[0]), LineText(pieces[1..], e), Machine([], Nothing, out));
      FeedPiece(pieces[0], out);
      FeedLine(pieces[1..], e, out + kept);
      Regroup(out, kept, CodeOf(pieces[1..]), if e.Slashed? then "/" else "");
    }
  }

  /** A line put together from code and comments is stripped to its code, whatever the comments hold and
      however deep they nest, and leaves open what its last comment leaves open. */
  lemma StripsToCode(pieces: seq<Piece>, e: Ending)
    requires EndingOk(e) && forall i :: 0 <= i < |pieces| ==> PieceOk(pieces[i])
    ensures Strip(LineText(pieces, e), [])
         == Machine(LeftOpen(e), Nothing, CodeOf(pieces) + if e.Slashed? then "/" else "")
  {
    FeedLine(pieces, e, "");
    assert "" + CodeOf(pieces) == CodeOf(pieces);
  }

  /** A line that goes on inside an open comment and closes it is stripped like what follows; one that
      does not close it is dropped whole. */
  lemma StripsContinued(text: string, ts: seq<Token>, d: int, pieces: seq<Piece>, e: Ending)
    requires StarText(text) && Nested(ts, d)
    requires EndingOk(e) && forall i :: 0 <= i < |pieces| ==> PieceOk(pieces[i])
    ensures Strip(text + "*/" + LineText(pieces, e), [StarSlash]) == Strip(LineText(pieces, e), [])
    ensures Strip(text, [StarSlash]) == Machine([StarSlash], Nothing, "")
    ensures Strip(Written(ts), Pluses(d)) == Machine(Pluses(DepthAfter(ts, d)), Nothing, "")
    ensures DepthAfter(ts, d) == 0 ==>
              Strip(Written(ts) + LineText(pieces, e), Pluses(d)) == Strip(LineText(pieces, e), [])
  {
    var line := LineText(pieces, e);
    var m := Machine([StarSlash], Nothing, "");
    FeedStar(text, m, "");
    FeedStarCloser(Feed(text, m), "");
    FeedAppend(text + "*/", line, m);
    FeedAppend(text, "*/", m);
    FeedNested(ts, d, "");
    FeedAppend(Written(ts), line, Machine(Pluses(d), Nothing, ""));
    assert Pluses(0) == [];
  }
}
