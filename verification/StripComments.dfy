/** Dropping comment-only lines (dropCommentLines in hack/stripcomments/main.go): which lines stay. */
module StripComments {

  datatype Span = Span(first: nat, last: nat)

  /** A scanned token: the lines it lies on, and what it is. */
  datatype Kind = Code | Comment | AutoSemicolon

  datatype Token = Token(kind: Kind, span: Span)

  predicate WellFormed(tokens: seq<Token>) {
    forall i :: 0 <= i < |tokens| ==> tokens[i].span.first <= tokens[i].span.last
  }

  predicate On(s: Span, l: nat) {
    s.first <= l <= s.last
  }

  predicate CodeLine(tokens: seq<Token>, l: nat) {
    exists i :: 0 <= i < |tokens| && tokens[i].kind == Code && On(tokens[i].span, l)
  }

  predicate CommentLine(tokens: seq<Token>, l: nat) {
    exists i :: 0 <= i < |tokens| && tokens[i].kind == Comment && On(tokens[i].span, l)
  }

  ghost predicate Touches(s: Span, lines: set<nat>) {
    exists l: nat :: On(s, l) && l in lines
  }

  ghost predicate Within(s: Span, lines: set<nat>) {
    forall l: nat :: On(s, l) ==> l in lines
  }

  /** A comment that touches a kept line is kept as a whole. */
  ghost predicate Closed(comments: seq<Span>, lines: set<nat>) {
    forall i :: 0 <= i < |comments| ==> Touches(comments[i], lines) ==> Within(comments[i], lines)
  }

  /** The least set of lines that holds every code line and is closed under whole comments. */
  ghost predicate Least(lines: set<nat>, code: set<nat>, comments: seq<Span>) {
    && code <= lines && Closed(comments, lines)
    && forall other: set<nat> :: code <= other && Closed(comments, other) ==> lines <= other
  }

  function Comments(tokens: seq<Token>): seq<Span> {
    if tokens == [] then []
    else
      var k := |tokens| - 1;
      Comments(tokens[..k]) + if tokens[k].kind == Comment then [tokens[k].span] else []
  }

  lemma {:induction false} CommentsAre(tokens: seq<Token>, s: Span)
    ensures s in Comments(tokens) <==> exists i :: 0 <= i < |tokens| && tokens[i].kind == Comment && tokens[i].span == s
  {
    if tokens != [] {
      var k := |tokens| - 1;
      var init := tokens[..k];
      CommentsAre(init, s);
      assert forall i :: 0 <= i < k ==> init[i] == tokens[i];
    }
  }

  function Lines(s: Span): set<nat> {
    set l: nat | l <= s.last && On(s, l)
  }

  /** The scan: code lines, comment lines and the comments in order. */
  method Scan(tokens: seq<Token>) returns (code: set<nat>, comment: set<nat>, comments: seq<Span>)
    requires WellFormed(tokens)
    ensures forall l: nat :: l in code <==> CodeLine(tokens, l)
    ensures forall l: nat :: l in comment <==> CommentLine(tokens, l)
    ensures comments == Comments(tokens)
  {
    code, comment, comments := {}, {}, [];
    for i := 0 to |tokens|
      invariant forall l: nat :: l in code <==> CodeLine(tokens[..i], l)
      invariant forall l: nat :: l in comment <==> CommentLine(tokens[..i], l)
      invariant comments == Comments(tokens[..i])
    {
      var t := tokens[i];
      assert tokens[..i + 1][..i] == tokens[..i];
      forall l: nat
        ensures CodeLine(tokens[..i + 1], l) <==> CodeLine(tokens[..i], l) || (t.kind == Code && On(t.span, l))
        ensures CommentLine(tokens[..i + 1], l) <==> CommentLine(tokens[..i], l) || (t.kind == Comment && On(t.span, l))
      {
        OneMore(tokens, i, l);
      }
      if t.kind == AutoSemicolon {
        continue;
      }
      var lines := LinesOf(t.span);
      if t.kind == Comment {
        comments := comments + [t.span];
        comment := comment + lines;
        continue;
      }
      code := code + lines;
    }
    assert tokens[..|tokens|] == tokens;
  }

  lemma OneMore(tokens: seq<Token>, i: nat, l: nat)
    requires i < |tokens|
    ensures CodeLine(tokens[..i + 1], l) <==> CodeLine(tokens[..i], l) || (tokens[i].kind == Code && On(tokens[i].span, l))
    ensures CommentLine(tokens[..i + 1], l) <==> CommentLine(tokens[..i], l) || (tokens[i].kind == Comment && On(tokens[i].span, l))
  {
    var a, b := tokens[..i], tokens[..i + 1];
    assert b[i] == tokens[i];
    assert forall k :: 0 <= k < i ==> a[k] == b[k];
  }

  method LinesOf(s: Span) returns (lines: set<nat>)
    ensures lines == Lines(s)
  {
    lines := {};
    var l := s.first;
    while l <= s.last
      invariant s.first <= l && (s.first <= s.last ==> l <= s.last + 1)
      invariant forall k: nat :: k in lines <==> On(s, k) && k < l
      decreases s.last + 1 - l
    {
      lines := lines + {l};
      l := l + 1;
    }
    assert forall k: nat :: k in lines <==> k in Lines(s);
  }

  /** Every line a comment lies on. */
  function Reach(comments: seq<Span>): set<nat> {
    if comments == [] then {} else Reach(comments[..|comments| - 1]) + Lines(comments[|comments| - 1])
  }

  lemma {:induction false} ReachHolds(comments: seq<Span>, i: nat)
    requires i < |comments|
    ensures Lines(comments[i]) <= Reach(comments)
  {
    if i < |comments| - 1 {
      ReachHolds(comments[..|comments| - 1], i);
    }
  }

  /** Keeps whole every comment that shares a line with code, until a round changes nothing. Each round but the last
      keeps a new line, so it ends. */
  method KeepWholeComments(start: set<nat>, comments: seq<Span>) returns (code: set<nat>)
    requires forall i :: 0 <= i < |comments| ==> comments[i].first <= comments[i].last
    ensures Least(code, start, comments)
  {
    code := start;
    var changed := true;
    while changed
      invariant start <= code
      invariant forall other: set<nat> :: start <= other && Closed(comments, other) ==> code <= other
      invariant !changed ==> Closed(comments, code)
      decreases |Reach(comments) - code| + if changed then 1 else 0
    {
      changed := false;
      ghost var before := code;
      for i := 0 to |comments|
        invariant before <= code && (changed <==> code != before)
        invariant forall other: set<nat> :: start <= other && Closed(comments, other) ==> code <= other
        invariant !changed ==> forall k :: 0 <= k < i ==> Touches(comments[k], code) ==> Within(comments[k], code)
        invariant code <= before + Reach(comments)
      {
        var c := comments[i];
        var shared := SharesLine(c, code);
        if shared {
          ReachHolds(comments, i);
          var lines := LinesOf(c);
          forall other: set<nat> | start <= other && Closed(comments, other) ensures lines <= other {
            assert code <= other;
            assert Touches(c, other);
          }
          if !(lines <= code) {
            changed := true;
          }
          code := code + lines;
        }
      }
      if changed {
        Shrinks(Reach(comments), before, code);
      }
    }
  }

  lemma Shrinks(all: set<nat>, before: set<nat>, after: set<nat>)
    requires before <= after <= before + all && before != after
    ensures |all - after| < |all - before|
  {
    var x :| x in after && x !in before;
    assert all - after < all - before;
    Smaller(all - after, all - before);
  }

  lemma Smaller(a: set<nat>, b: set<nat>)
    requires a < b
    ensures |a| < |b|
  {
    assert b == a + (b - a);
    assert b - a != {};
  }

  method SharesLine(s: Span, lines: set<nat>) returns (shared: bool)
    ensures shared == Touches(s, lines)
  {
    shared := false;
    var l := s.first;
    while l <= s.last
      invariant s.first <= l
      invariant shared == exists k: nat :: s.first <= k < l && k <= s.last && k in lines
      decreases s.last + 1 - l
    {
      shared := shared || l in lines;
      l := l + 1;
    }
  }

  predicate KeepsLine(tokens: seq<Token>, kept: set<nat>, l: nat) {
    CommentLine(tokens, l) ==> l in kept
  }

  /** The lines that stay, in order; lines are counted from 1. */
  function KeptLines<T>(tokens: seq<Token>, kept: set<nat>, lines: seq<T>): seq<T> {
    if lines == [] then []
    else
      var k := |lines| - 1;
      KeptLines(tokens, kept, lines[..k]) + if KeepsLine(tokens, kept, k + 1) then [lines[k]] else []
  }

  /** The least set of lines that holds every line with a token and, with a line of a comment, the whole comment. */
  ghost predicate LeastKept(tokens: seq<Token>, kept: set<nat>) {
    && (forall l: nat :: CodeLine(tokens, l) ==> l in kept)
    && Closed(Comments(tokens), kept)
    && forall other: set<nat> :: (forall l: nat :: CodeLine(tokens, l) ==> l in other) && Closed(Comments(tokens), other) ==> kept <= other
  }

  lemma LeastKeptIsUnique(tokens: seq<Token>, a: set<nat>, b: set<nat>)
    requires LeastKept(tokens, a) && LeastKept(tokens, b)
    ensures a == b
  {
  }

  /** A line goes exactly when a comment lies on it and it is outside the least kept set; the others stay in order. */
  method DropCommentLines<T>(tokens: seq<Token>, lines: seq<T>) returns (out: seq<T>)
    requires WellFormed(tokens)
    ensures exists kept: set<nat> :: LeastKept(tokens, kept)
    ensures forall kept: set<nat> :: LeastKept(tokens, kept) ==> out == KeptLines(tokens, kept, lines)
  {
    var code, comment, comments := Scan(tokens);
    forall i | 0 <= i < |comments| ensures comments[i].first <= comments[i].last {
      CommentsAre(tokens, comments[i]);
    }
    var keep := KeepWholeComments(code, comments);
    assert LeastKept(tokens, keep) by {
      forall other: set<nat> | (forall l: nat :: CodeLine(tokens, l) ==> l in other) && Closed(comments, other)
        ensures keep <= other
      {
        assert code <= other;
      }
    }
    out := [];
    for i := 0 to |lines|
      invariant out == KeptLines(tokens, keep, lines[..i])
    {
      assert lines[..i + 1][..i] == lines[..i];
      var n := i + 1;
      if n in comment && n !in keep {
        continue;
      }
      out := out + [lines[i]];
    }
    assert lines[..|lines|] == lines;
    forall kept: set<nat> | LeastKept(tokens, kept) ensures out == KeptLines(tokens, kept, lines) {
      LeastKeptIsUnique(tokens, keep, kept);
    }
  }

  /** What the least set gives a reader: no line with a token goes, and a comment stays or goes as a whole. */
  lemma CommentsStayWhole(tokens: seq<Token>, kept: set<nat>, i: nat)
    requires LeastKept(tokens, kept) && i < |tokens|
    ensures tokens[i].kind == Code ==> forall l: nat :: On(tokens[i].span, l) ==> KeepsLine(tokens, kept, l)
    ensures tokens[i].kind == Comment ==>
              || (forall l: nat :: On(tokens[i].span, l) ==> KeepsLine(tokens, kept, l))
              || (forall l: nat :: On(tokens[i].span, l) ==> !KeepsLine(tokens, kept, l))
  {
    var s := tokens[i].span;
    if tokens[i].kind == Comment {
      CommentsAre(tokens, s);
      assert s in Comments(tokens);
      assert Touches(s, kept) ==> Within(s, kept);
      assert forall l: nat :: On(s, l) ==> CommentLine(tokens, l);
    }
    if tokens[i].kind == Code {
      assert forall l: nat :: On(s, l) ==> CodeLine(tokens, l);
    }
  }
}
